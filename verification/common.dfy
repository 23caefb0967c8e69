/** Values shared by every module: optional values, Python exceptions and the
    outcome of a call that may raise one, plus the handful of Python string
    operations (`str.replace`, `str.join`, `str.strip`, `str.upper`, ...) that
    the prompt builders, the CLI and the OCR helpers are written with. */
module Common {

  datatype Option<+T> = None | Some(value: T)

  /** The Python exception classes the modelled code raises or catches. */
  datatype ExcKind =
    | ValueError
    | TypeError
    | AttributeError
    | UnboundLocalError
    | ZeroDivisionError
    | OSError
    | HttpException(status: int)
    | ExternalError   // anything an SDK, the network or the database raises

  /** An exception; `message` is what `str(exc)` gives. */
  datatype Exception = Exception(kind: ExcKind, message: string)

  /** The result of a Python call: it returns a value or raises. */
  datatype Outcome<+T> = Ok(value: T) | Raised(exc: Exception)

  /** A chat/generation endpoint of an SDK client: it receives the system
      instruction and the user content and replies with text or raises. */
  type Chat = (string, string) -> Outcome<string>

  /** `str(exc)` */
  function Str(e: Exception): string { e.message }

  /** The message Python gives for an attribute looked up on a value of the wrong type. */
  function NoAttribute(typeName: string, attr: string): (e: Exception)
    ensures e.kind == AttributeError
  {
    Exception(AttributeError, "'" + typeName + "' object has no attribute '" + attr + "'")
  }

  /** The message Python 3.11+ gives for a local read before any assignment. */
  function Unbound(name: string): (e: Exception)
    ensures e.kind == UnboundLocalError
  {
    Exception(UnboundLocalError, "cannot access local variable '" + name + "' where it is not associated with a value")
  }

  function Min(a: int, b: int): int { if a <= b then a else b }

  // ---------------------------------------------------------------------
  // Characters

  /** Python's `str.isspace()` on one character. */
  predicate IsSpace(c: char) {
    || c == ' ' || c == '\t' || c == '\n' || c == '\r'
    || c == '\U{000B}' || c == '\U{000C}'
    || ('\U{001C}' <= c <= '\U{001F}')
    || c == '\U{0085}' || c == '\U{00A0}' || c == '\U{1680}'
    || ('\U{2000}' <= c <= '\U{200A}')
    || c == '\U{2028}' || c == '\U{2029}' || c == '\U{202F}' || c == '\U{205F}' || c == '\U{3000}'
  }

  /** True when `not s.strip()`: the string is empty or all whitespace. */
  predicate IsBlank(s: string) {
    forall i :: 0 <= i < |s| ==> IsSpace(s[i])
  }

  function UpperChar(c: char): char {
    if 'a' <= c <= 'z' then (c as int - 32) as char else c
  }

  function LowerChar(c: char): char {
    if 'A' <= c <= 'Z' then (c as int + 32) as char else c
  }

  /** `s.upper()` (ASCII letters). */
  function Upper(s: string): (r: string)
    ensures |r| == |s|
    ensures forall i :: 0 <= i < |s| ==> r[i] == UpperChar(s[i])
  {
    seq(|s|, i requires 0 <= i < |s| => UpperChar(s[i]))
  }

  /** `s.lower()` (ASCII letters). */
  function Lower(s: string): (r: string)
    ensures |r| == |s|
    ensures forall i :: 0 <= i < |s| ==> r[i] == LowerChar(s[i])
  {
    seq(|s|, i requires 0 <= i < |s| => LowerChar(s[i]))
  }

  /** Upper-casing is idempotent, so an already upper-cased code looks up the same. */
  lemma UpperIdempotent(s: string)
    ensures Upper(Upper(s)) == Upper(s)
  {
    assert forall i :: 0 <= i < |s| ==> UpperChar(UpperChar(s[i])) == UpperChar(s[i]);
  }

  // ---------------------------------------------------------------------
  // str.strip()

  function StripLeft(s: string): (r: string)
    ensures |r| <= |s| && r == s[|s| - |r|..]
    ensures r == [] || !IsSpace(r[0])
    ensures forall i :: 0 <= i < |s| - |r| ==> IsSpace(s[i])
    decreases |s|
  {
    if s != [] && IsSpace(s[0]) then StripLeft(s[1..]) else s
  }

  function StripRight(s: string): (r: string)
    ensures |r| <= |s| && r == s[..|r|]
    ensures r == [] || !IsSpace(r[|r| - 1])
    ensures forall i :: |r| <= i < |s| ==> IsSpace(s[i])
    decreases |s|
  {
    if s != [] && IsSpace(s[|s| - 1]) then StripRight(s[..|s| - 1]) else s
  }

  /** `r` is what is left of `s` once `k` characters of whitespace are dropped
      in front and all the whitespace after `r` is dropped behind. */
  ghost predicate InfixBetweenSpaces(s: string, r: string, k: int) {
    && 0 <= k <= |s| - |r| && r == s[k..k + |r|]
    && (forall i :: 0 <= i < k ==> IsSpace(s[i]))
    && (forall i :: k + |r| <= i < |s| ==> IsSpace(s[i]))
  }

  /** `s.strip()`: the longest infix of `s` without leading or trailing
      whitespace, that is the infix left after dropping a whitespace prefix
      and a whitespace suffix. */
  function Strip(s: string): (r: string)
    ensures r == [] || (!IsSpace(r[0]) && !IsSpace(r[|r| - 1]))
    ensures exists k :: InfixBetweenSpaces(s, r, k)
  {
    var l := StripLeft(s);
    InfixOfParts(s, l, StripRight(l));
    StripRight(l)
  }

  /** A whitespace prefix dropped from `s` leaves `l`, and a whitespace suffix
      dropped from `l` leaves `r`: `r` lies between spaces in `s`. */
  lemma InfixOfParts(s: string, l: string, r: string)
    requires |l| <= |s| && l == s[|s| - |l|..]
    requires forall i :: 0 <= i < |s| - |l| ==> IsSpace(s[i])
    requires |r| <= |l| && r == l[..|r|]
    requires forall i :: |r| <= i < |l| ==> IsSpace(l[i])
    ensures InfixBetweenSpaces(s, r, |s| - |l|)
  {
    var k := |s| - |l|;
    assert r == s[k..k + |r|];
    forall i | k + |r| <= i < |s| ensures IsSpace(s[i]) {
      assert s[i] == l[i - k];
    }
  }

  /** Stripping adds no character. */
  lemma StripKeepsOut(s: string, c: char)
    requires c !in s
    ensures c !in Strip(s)
  {
    var r := Strip(s);
    var k :| InfixBetweenSpaces(s, r, k);
    forall i | 0 <= i < |r| ensures r[i] != c {
      assert r[i] == s[k + i];
    }
  }

  /** `s.strip()` is empty exactly when the string is blank. */
  lemma StripEmptyIffBlank(s: string)
    ensures Strip(s) == [] <==> IsBlank(s)
  {
    var l := StripLeft(s);
    StripLeftEmptyIffBlank(s);
    if l != [] {
      StripRightKeepsFirst(l);
    }
  }

  lemma {:induction false} StripLeftEmptyIffBlank(s: string)
    ensures StripLeft(s) == [] <==> IsBlank(s)
    decreases |s|
  {
    if s != [] {
      if IsSpace(s[0]) {
        StripLeftEmptyIffBlank(s[1..]);
        assert IsBlank(s) <==> IsBlank(s[1..]) by {
          forall i | 0 <= i < |s[1..]| ensures s[1..][i] == s[i + 1] { }
        }
      } else {
        assert !IsBlank(s) by { assert !IsSpace(s[0]); }
      }
    }
  }

  lemma {:induction false} StripRightKeepsFirst(s: string)
    requires s != [] && !IsSpace(s[0])
    ensures StripRight(s) != []
    decreases |s|
  {
    if IsSpace(s[|s| - 1]) {
      assert |s| > 1;
      StripRightKeepsFirst(s[..|s| - 1]);
    }
  }

  // ---------------------------------------------------------------------
  // str.replace(old, new), with a non-empty `old`

  /** `pat` occurs in `s` at index `i`. */
  predicate OccursAt(s: string, pat: string, i: int) {
    0 <= i && i + |pat| <= |s| && s[i..i + |pat|] == pat
  }

  predicate Occurs(s: string, pat: string) {
    exists i :: 0 <= i <= |s| && OccursAt(s, pat, i)
  }

  /** `s.replace(pat, rep)`: scanning left to right, every non-overlapping
      occurrence of `pat` is replaced by `rep`. */
  function ReplaceAll(s: string, pat: string, rep: string): string
    requires |pat| > 0
    decreases |s|
  {
    if s == [] then []
    else if pat <= s then rep + ReplaceAll(s[|pat|..], pat, rep)
    else [s[0]] + ReplaceAll(s[1..], pat, rep)
  }

  /** The pieces of `s` between the occurrences `ReplaceAll` finds
      (`s.split(pat)` in Python); the reference that `ReplaceAll` is proved against. */
  function Split(s: string, pat: string): (r: seq<string>)
    requires |pat| > 0
    ensures |r| >= 1
    decreases |s|
  {
    if s == [] then [[]]
    else if pat <= s then [[]] + Split(s[|pat|..], pat)
    else
      var t := Split(s[1..], pat);
      [[s[0]] + t[0]] + t[1..]
  }

  /** `sep.join(xs)` */
  function Join(xs: seq<string>, sep: string): string
    decreases |xs|
  {
    if |xs| == 0 then []
    else if |xs| == 1 then xs[0]
    else xs[0] + sep + Join(xs[1..], sep)
  }

  /** Appending one more element to a joined list. */
  lemma {:induction false} JoinSnoc(xs: seq<string>, y: string, sep: string)
    requires |xs| > 0
    ensures Join(xs + [y], sep) == Join(xs, sep) + sep + y
    decreases |xs|
  {
    if |xs| == 1 {
      assert xs + [y] == [xs[0], y];
      assert [xs[0], y][1..] == [y];
    } else {
      assert (xs + [y])[1..] == xs[1..] + [y];
      JoinSnoc(xs[1..], y, sep);
    }
  }

  /** Joining two non-empty lists one after the other puts one separator between them. */
  lemma {:induction false} JoinAppend(xs: seq<string>, ys: seq<string>, sep: string)
    requires |xs| > 0 && |ys| > 0
    ensures Join(xs + ys, sep) == Join(xs, sep) + sep + Join(ys, sep)
    decreases |xs|
  {
    if |xs| == 1 {
      assert (xs + ys)[1..] == ys;
    } else {
      assert (xs + ys)[1..] == xs[1..] + ys;
      JoinAppend(xs[1..], ys, sep);
    }
  }

  /** The length of a joined list: the pieces plus one separator between each two. */
  lemma {:induction false} JoinLength(xs: seq<string>, sep: string, total: nat)
    requires total == SumLengths(xs)
    ensures |xs| > 0 ==> |Join(xs, sep)| == total + (|xs| - 1) * |sep|
    ensures |xs| == 0 ==> Join(xs, sep) == []
    decreases |xs|
  {
    if |xs| > 1 {
      JoinLength(xs[1..], sep, SumLengths(xs[1..]));
    }
  }

  function SumLengths(xs: seq<string>): nat
    decreases |xs|
  {
    if xs == [] then 0 else |xs[0]| + SumLengths(xs[1..])
  }

  lemma {:induction false} JoinConsHead(c: char, t: seq<string>, sep: string)
    requires |t| >= 1
    ensures Join([[c] + t[0]] + t[1..], sep) == [c] + Join(t, sep)
  {
    var xs := [[c] + t[0]] + t[1..];
    if |t| > 1 {
      assert xs[1..] == t[1..];
    }
  }

  /** Replacing is joining the pieces with the replacement. */
  lemma {:induction false} ReplaceIsJoinOfSplit(s: string, pat: string, rep: string)
    requires |pat| > 0
    ensures ReplaceAll(s, pat, rep) == Join(Split(s, pat), rep)
    decreases |s|
  {
    if s == [] {
    } else if pat <= s {
      ReplaceIsJoinOfSplit(s[|pat|..], pat, rep);
      var t := Split(s[|pat|..], pat);
      assert ([[]] + t)[1..] == t;
    } else {
      ReplaceIsJoinOfSplit(s[1..], pat, rep);
      JoinConsHead(s[0], Split(s[1..], pat), rep);
    }
  }

  /** Joining the pieces with the pattern itself gives the input back, so
      replacing a pattern by itself changes nothing. */
  lemma {:induction false} SplitJoinRoundTrip(s: string, pat: string)
    requires |pat| > 0
    ensures Join(Split(s, pat), pat) == s
    ensures ReplaceAll(s, pat, pat) == s
    decreases |s|
  {
    ReplaceIsJoinOfSplit(s, pat, pat);
    if s == [] {
    } else if pat <= s {
      SplitJoinRoundTrip(s[|pat|..], pat);
      assert s == pat + s[|pat|..];
    } else {
      SplitJoinRoundTrip(s[1..], pat);
      assert s == [s[0]] + s[1..];
    }
  }

  /** The first piece is a prefix of the input. */
  lemma {:induction false} SplitHeadIsPrefix(s: string, pat: string)
    requires |pat| > 0
    ensures Split(s, pat)[0] <= s
    decreases |s|
  {
    if s != [] && !(pat <= s) {
      SplitHeadIsPrefix(s[1..], pat);
    }
  }

  /** No piece contains the pattern: every occurrence was found and replaced. */
  lemma {:induction false} SplitPiecesFree(s: string, pat: string)
    requires |pat| > 0
    ensures forall k :: 0 <= k < |Split(s, pat)| ==> !Occurs(Split(s, pat)[k], pat)
    decreases |s|
  {
    if s == [] {
      assert Split(s, pat) == [[]];
    } else if pat <= s {
      SplitPiecesFree(s[|pat|..], pat);
      var t := Split(s[|pat|..], pat);
      assert Split(s, pat) == [[]] + t;
      forall k | 0 <= k < |Split(s, pat)| ensures !Occurs(Split(s, pat)[k], pat) {
        if k > 0 { assert Split(s, pat)[k] == t[k - 1]; }
      }
    } else {
      SplitPiecesFree(s[1..], pat);
      SplitHeadIsPrefix(s[1..], pat);
      var t := Split(s[1..], pat);
      var head := [s[0]] + t[0];
      assert head <= s;
      if Occurs(head, pat) {
        var i :| 0 <= i <= |head| && OccursAt(head, pat, i);
        assert i + |pat| <= |head|;
        if i == 0 {
          assert false;
        } else {
          assert head[i..i + |pat|] == t[0][i - 1..i - 1 + |pat|];
          assert OccursAt(t[0], pat, i - 1);
          assert false;
        }
      }
      forall k | 0 <= k < |Split(s, pat)| ensures !Occurs(Split(s, pat)[k], pat) {
        if k > 0 { assert Split(s, pat)[k] == t[k]; }
      }
    }
  }

  /** A string without the pattern is left as it is. */
  lemma {:induction false} ReplaceAbsent(s: string, pat: string, rep: string)
    requires |pat| > 0
    requires !Occurs(s, pat)
    ensures ReplaceAll(s, pat, rep) == s
    decreases |s|
  {
    if s != [] {
      if pat <= s {
        assert OccursAt(s, pat, 0);
      }
      if Occurs(s[1..], pat) {
        var i :| 0 <= i <= |s[1..]| && OccursAt(s[1..], pat, i);
        assert i + |pat| <= |s[1..]|;
        assert s[1..][i..i + |pat|] == s[i + 1..i + 1 + |pat|];
        assert OccursAt(s, pat, i + 1);
      }
      ReplaceAbsent(s[1..], pat, rep);
    }
  }

  /** Replacing a one-character pattern by a string that does not contain it
      leaves no occurrence of that character. */
  lemma {:induction false} ReplaceCharRemovesIt(s: string, c: char, rep: string)
    requires c !in rep
    ensures c !in ReplaceAll(s, [c], rep)
    decreases |s|
  {
    if s != [] {
      if [c] <= s {
        ReplaceCharRemovesIt(s[1..], c, rep);
        assert s[1..] == s[|[c]|..];
      } else {
        assert s[0] != c;
        ReplaceCharRemovesIt(s[1..], c, rep);
      }
    }
  }
}
