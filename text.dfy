/**
 * The string operations the schemas rely on: the `trim` and `lowercase`
 * setters, and the three regular expressions the validators use
 * (`/\d/`, `/[a-zA-Z]/` and the unanchored `'[0-9]{10}'`).
 */
module Text {

  /** The code points JavaScript's `String.prototype.trim` removes:
      WhiteSpace (including every space separator) and LineTerminator. */
  predicate IsSpace(c: char) {
    || c == '\t' || c == '\n' || c == '\U{B}' || c == '\U{C}' || c == '\r' || c == ' '
    || c == '\U{A0}' || c == '\U{1680}' || ('\U{2000}' <= c <= '\U{200A}')
    || c == '\U{2028}' || c == '\U{2029}' || c == '\U{202F}' || c == '\U{205F}'
    || c == '\U{3000}' || c == '\U{FEFF}'
  }

  /** Drops the leading white space. */
  function TrimStart(s: string): string {
    if s != [] && IsSpace(s[0]) then TrimStart(s[1..]) else s
  }

  /** Drops the trailing white space. */
  function TrimEnd(s: string): string {
    if s != [] && IsSpace(s[|s| - 1]) then TrimEnd(s[..|s| - 1]) else s
  }

  /** The `trim: true` setter. */
  function Trim(s: string): string {
    TrimEnd(TrimStart(s))
  }

  lemma {:induction false} TrimStartSpec(s: string)
    ensures var r := TrimStart(s);
      && |r| <= |s| && r == s[|s| - |r|..]
      && (forall i :: 0 <= i < |s| - |r| ==> IsSpace(s[i]))
      && (r == [] || !IsSpace(r[0]))
    decreases |s|
  {
    if s != [] && IsSpace(s[0]) {
      TrimStartSpec(s[1..]);
    }
  }

  lemma {:induction false} TrimEndSpec(s: string)
    ensures var r := TrimEnd(s);
      && |r| <= |s| && r == s[..|r|]
      && (forall i :: |r| <= i < |s| ==> IsSpace(s[i]))
      && (r == [] || !IsSpace(r[|r| - 1]))
    decreases |s|
  {
    if s != [] && IsSpace(s[|s| - 1]) {
      TrimEndSpec(s[..|s| - 1]);
    }
  }

  /** Number of leading white-space characters. */
  function Lead(s: string): nat {
    TrimStartSpec(s);
    |s| - |TrimStart(s)|
  }

  /** What `trim` keeps: the longest slice of `s` that neither starts nor
      ends with white space; everything cut off is white space. */
  lemma TrimSpec(s: string)
    ensures var r := Trim(s);
      && Lead(s) + |r| <= |s| && r == s[Lead(s)..Lead(s) + |r|]
      && (forall i :: 0 <= i < Lead(s) ==> IsSpace(s[i]))
      && (forall i :: Lead(s) + |r| <= i < |s| ==> IsSpace(s[i]))
      && (r == [] || (!IsSpace(r[0]) && !IsSpace(r[|r| - 1])))
  {
    var t := TrimStart(s);
    TrimStartSpec(s);
    TrimEndSpec(t);
    var r := TrimEnd(t);
    if r != [] {
      assert r[0] == t[0];
    }
  }

  /** Case folding of one character; only ASCII letters are folded. */
  function LowerChar(c: char): char {
    if 'A' <= c <= 'Z' then (c as int - 'A' as int + 'a' as int) as char else c
  }

  predicate IsUpper(c: char) {
    'A' <= c <= 'Z'
  }

  /** The `lowercase: true` setter. */
  function Lower(s: string): string {
    if s == [] then [] else [LowerChar(s[0])] + Lower(s[1..])
  }

  /** `lowercase` folds each character in place and leaves no upper-case
      letter behind. */
  lemma {:induction false} LowerSpec(s: string)
    ensures |Lower(s)| == |s|
    ensures forall i :: 0 <= i < |s| ==> Lower(s)[i] == LowerChar(s[i])
    ensures forall i :: 0 <= i < |s| ==> !IsUpper(Lower(s)[i])
    decreases |s|
  {
    if s != [] {
      LowerSpec(s[1..]);
    }
  }

  /** The value a path with both `trim: true` and `lowercase: true` stores. */
  function Normalize(s: string): string {
    Lower(Trim(s))
  }

  /** A string that both setters leave as it is. */
  ghost predicate IsNormal(s: string) {
    && (s == [] || (!IsSpace(s[0]) && !IsSpace(s[|s| - 1])))
    && forall i :: 0 <= i < |s| ==> !IsUpper(s[i])
  }

  /** Folding case leaves white space alone and creates none. */
  lemma LowerCharSpace(c: char)
    ensures IsSpace(LowerChar(c)) <==> IsSpace(c)
  {
  }

  lemma {:induction false} TrimStartLower(s: string)
    ensures TrimStart(Lower(s)) == Lower(TrimStart(s))
    decreases |s|
  {
    if s != [] {
      LowerCharSpace(s[0]);
      if IsSpace(s[0]) {
        TrimStartLower(s[1..]);
      }
    }
  }

  lemma {:induction false} LowerSnoc(s: string)
    requires s != []
    ensures Lower(s) == Lower(s[..|s| - 1]) + [LowerChar(s[|s| - 1])]
    decreases |s|
  {
    if |s| > 1 {
      LowerSnoc(s[1..]);
      assert s[1..][..|s| - 2] == s[1..|s| - 1];
      assert s[..|s| - 1][1..] == s[1..|s| - 1];
    }
  }

  lemma {:induction false} TrimEndLower(s: string)
    ensures TrimEnd(Lower(s)) == Lower(TrimEnd(s))
    decreases |s|
  {
    if s != [] {
      LowerSpec(s);
      LowerSnoc(s);
      var l := Lower(s);
      LowerCharSpace(s[|s| - 1]);
      assert l[..|s| - 1] == Lower(s[..|s| - 1]);
      if IsSpace(s[|s| - 1]) {
        TrimEndLower(s[..|s| - 1]);
      }
    }
  }

  /** Folding case never creates or removes white space, so the order in
      which the two setters run does not matter. */
  lemma TrimLowerCommute(s: string)
    ensures Trim(Lower(s)) == Lower(Trim(s))
  {
    TrimStartLower(s);
    TrimEndLower(TrimStart(s));
  }

  /** A normal string is a fixed point of both setters. */
  lemma NormalIsFixed(s: string)
    requires IsNormal(s)
    ensures Trim(s) == s && Lower(s) == s && Normalize(s) == s
  {
    LowerFixed(s);
  }

  lemma {:induction false} LowerFixed(s: string)
    requires forall i :: 0 <= i < |s| ==> !IsUpper(s[i])
    ensures Lower(s) == s
    decreases |s|
  {
    if s != [] {
      LowerFixed(s[1..]);
    }
  }

  /** Running the setters on a stored value changes nothing: the stored
      value is normal, and normalising it again is the identity. */
  lemma NormalizeIsNormal(s: string)
    ensures IsNormal(Normalize(s))
    ensures Normalize(Normalize(s)) == Normalize(s)
  {
    var n := Lower(Trim(s));
    TrimLowerCommute(s);
    TrimSpec(Lower(s));
    LowerSpec(Trim(s));
    NormalIsFixed(n);
  }

  lemma TrimIdempotent(s: string)
    ensures Trim(Trim(s)) == Trim(s)
  {
    TrimSpec(s);
  }

  // ---------------------------------------------------------------------
  // Regular expressions

  /** The two character classes the validators use. */
  datatype CharClass = Digit | AsciiLetter {
    /** `\d` (without the `u` flag) and `[a-zA-Z]`. */
    predicate Has(c: char) {
      match this
      case Digit => '0' <= c <= '9'
      case AsciiLetter => ('a' <= c <= 'z') || ('A' <= c <= 'Z')
    }
  }

  /** A run of `n` consecutive characters of class `k` starts at index `i`. */
  ghost predicate RunAt(s: string, k: CharClass, n: nat, i: nat) {
    i + n <= |s| && forall j :: i <= j < i + n ==> k.Has(s[j])
  }

  /** What the unanchored pattern `k{n}` matches: some run of `n`
      consecutive characters of class `k`, anywhere in `s`. */
  ghost predicate HasRun(s: string, k: CharClass, n: nat) {
    exists i: nat :: RunAt(s, k, n, i)
  }

  /** `s` contains a character of class `k`. */
  ghost predicate Contains(s: string, k: CharClass) {
    exists i :: 0 <= i < |s| && k.Has(s[i])
  }

  /** Length of the run of class-`k` characters at the start of `s`. */
  function LeadRun(s: string, k: CharClass): (r: nat)
    ensures r <= |s|
  {
    if s != [] && k.Has(s[0]) then 1 + LeadRun(s[1..], k) else 0
  }

  /** A left-to-right scan that remembers the length `run` of the class-`k`
      run ending just before `s`, as a regular-expression engine searching
      for `k{n}` does. */
  function Scan(s: string, k: CharClass, n: nat, run: nat): bool
    decreases |s|
  {
    if run >= n then true
    else if s == [] then false
    else Scan(s[1..], k, n, if k.Has(s[0]) then run + 1 else 0)
  }

  /** `s.match(pattern)` for the pattern `k{n}`: true iff it finds a match. */
  function Search(s: string, k: CharClass, n: nat): (found: bool)
    ensures found <==> HasRun(s, k, n)
  {
    ScanCorrect(s, k, n, 0);
    RunAtStart(s, k, n);
    Scan(s, k, n, 0)
  }

  lemma {:induction false} RunAtStart(s: string, k: CharClass, n: nat)
    ensures RunAt(s, k, n, 0) <==> LeadRun(s, k) >= n
    decreases |s|
  {
    if n > 0 && s != [] && k.Has(s[0]) {
      RunAtStart(s[1..], k, n - 1);
      if RunAt(s, k, n, 0) {
        forall j | 0 <= j < n - 1
          ensures k.Has(s[1..][j])
        {
          assert s[1..][j] == s[j + 1];
        }
      }
      if RunAt(s[1..], k, n - 1, 0) {
        forall j | 0 <= j < n
          ensures k.Has(s[j])
        {
          if j > 0 {
            assert s[j] == s[1..][j - 1];
          }
        }
      }
    }
  }

  lemma RunAtShift(s: string, k: CharClass, n: nat, i: nat)
    requires s != []
    ensures RunAt(s, k, n, i + 1) <==> RunAt(s[1..], k, n, i)
  {
    if RunAt(s[1..], k, n, i) {
      assert forall j :: i + 1 <= j < i + 1 + n ==> s[j] == s[1..][j - 1];
    }
    if RunAt(s, k, n, i + 1) {
      assert forall j :: i <= j < i + n ==> s[1..][j] == s[j + 1];
    }
  }

  /** A run in `s` either starts at its first character or lies in its tail. */
  lemma HasRunCons(s: string, k: CharClass, n: nat)
    requires s != [] && n > 0
    ensures HasRun(s, k, n) <==> (LeadRun(s, k) >= n || HasRun(s[1..], k, n))
  {
    RunAtStart(s, k, n);
    if HasRun(s, k, n) {
      var i: nat :| RunAt(s, k, n, i);
      if i > 0 {
        RunAtShift(s, k, n, i - 1);
      }
    }
    if HasRun(s[1..], k, n) {
      var i: nat :| RunAt(s[1..], k, n, i);
      RunAtShift(s, k, n, i);
    }
  }

  lemma {:induction false} ScanCorrect(s: string, k: CharClass, n: nat, run: nat)
    ensures Scan(s, k, n, run) <==> (run + LeadRun(s, k) >= n || HasRun(s, k, n))
    decreases |s|
  {
    if run >= n {
    } else if s == [] {
      assert forall i: nat :: !RunAt(s, k, n, i);
    } else {
      HasRunCons(s, k, n);
      if k.Has(s[0]) {
        ScanCorrect(s[1..], k, n, run + 1);
      } else {
        ScanCorrect(s[1..], k, n, 0);
        RunAtStart(s[1..], k, n);
      }
    }
  }

  /** `s.match(/k/)` finds a match iff `s` contains a character of class `k`. */
  lemma SearchOne(s: string, k: CharClass)
    ensures Search(s, k, 1) <==> Contains(s, k)
  {
    if Contains(s, k) {
      var i :| 0 <= i < |s| && k.Has(s[i]);
      assert RunAt(s, k, 1, i);
    }
    if HasRun(s, k, 1) {
      var i: nat :| RunAt(s, k, 1, i);
      assert k.Has(s[i]);
    }
  }
}
