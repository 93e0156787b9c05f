/** Small shared vocabulary: optional values, results and the handful of
    JavaScript string operations the fabric relies on. */
module Base {

  datatype Option<+T> = None | Some(value: T) {
    function GetOr(default: T): T {
      match this
      case Some(v) => v
      case None => default
    }
  }

  datatype Result<+T, +E> = Ok(value: T) | Err(error: E)

  /** JavaScript truthiness of an optional string: `undefined` and `""` are falsy. */
  predicate Truthy(s: Option<string>) {
    s.Some? && s.value != ""
  }

  /** `a || b` for optional strings. */
  function OrElse(a: Option<string>, b: string): (r: string)
    ensures Truthy(a) ==> r == a.value
    ensures !Truthy(a) ==> r == b
  {
    if Truthy(a) then a.value else b
  }

  /** Template-literal rendering of an optional string (`${undefined}` is "undefined"). */
  function Render(s: Option<string>): string {
    match s
    case Some(v) => v
    case None => "undefined"
  }

  predicate StartsWith(s: string, prefix: string) {
    |prefix| <= |s| && s[..|prefix|] == prefix
  }

  predicate EndsWith(s: string, suffix: string) {
    |suffix| <= |s| && s[|s| - |suffix|..] == suffix
  }

  /** `s.includes(sub)`, computed by scanning. */
  predicate Contains(s: string, sub: string)
    decreases |s|
  {
    StartsWith(s, sub) || (|s| > 0 && Contains(s[1..], sub))
  }

  /** `sub` occurs in `s` starting at position `i`. */
  predicate OccursAt(s: string, sub: string, i: int) {
    0 <= i && i + |sub| <= |s| && s[i..i + |sub|] == sub
  }

  /** `s.includes(sub)` holds exactly when `sub` occurs at some position of `s`. */
  lemma {:induction false} ContainsIff(s: string, sub: string)
    ensures Contains(s, sub) <==> exists i :: OccursAt(s, sub, i)
    decreases |s|
  {
    if |s| > 0 {
      ContainsIff(s[1..], sub);
      if StartsWith(s, sub) {
        assert OccursAt(s, sub, 0);
      }
      if Contains(s[1..], sub) {
        var i :| OccursAt(s[1..], sub, i);
        assert s[i + 1..i + 1 + |sub|] == s[1..][i..i + |sub|];
        assert OccursAt(s, sub, i + 1);
      }
      if exists i :: OccursAt(s, sub, i) {
        var i :| OccursAt(s, sub, i);
        if i > 0 {
          assert s[1..][i - 1..i - 1 + |sub|] == s[i..i + |sub|];
          assert OccursAt(s[1..], sub, i - 1);
        } else {
          assert StartsWith(s, sub);
        }
      }
    } else {
      if Contains(s, sub) {
        assert OccursAt(s, sub, 0);
      }
      if exists i :: OccursAt(s, sub, i) {
        var i :| OccursAt(s, sub, i);
        assert i == 0 && |sub| == 0;
        assert s[..0] == sub;
      }
    }
  }

  function UpperChar(c: char): char {
    if 'a' <= c <= 'z' then (c as int - 32) as char else c
  }

  function LowerChar(c: char): char {
    if 'A' <= c <= 'Z' then (c as int + 32) as char else c
  }

  /** `toUpperCase()` restricted to ASCII letters. */
  function ToUpper(s: string): (r: string)
    ensures |r| == |s|
    ensures forall i :: 0 <= i < |s| ==> r[i] == UpperChar(s[i])
  {
    seq(|s|, i requires 0 <= i < |s| => UpperChar(s[i]))
  }

  /** `toLowerCase()` restricted to ASCII letters. */
  function ToLower(s: string): (r: string)
    ensures |r| == |s|
    ensures forall i :: 0 <= i < |s| ==> r[i] == LowerChar(s[i])
  {
    seq(|s|, i requires 0 <= i < |s| => LowerChar(s[i]))
  }

  function DigitChar(d: nat): char
    requires d < 10
  {
    "0123456789"[d]
  }

  /** Decimal rendering of a natural number, as `${n}` prints it. */
  function NatToString(n: nat): (r: string)
    ensures |r| > 0
    ensures forall i :: 0 <= i < |r| ==> '0' <= r[i] <= '9'
    decreases n
  {
    if n < 10 then [DigitChar(n)] else NatToString(n / 10) + [DigitChar(n % 10)]
  }

  /** Decimal rendering of an integer, with a leading '-' for negatives. */
  function IntToString(n: int): string {
    if n < 0 then "-" + NatToString(-n) else NatToString(n)
  }

  /** `parts.join(sep)`. */
  function Join(parts: seq<string>, sep: string): string
    decreases |parts|
  {
    if |parts| == 0 then ""
    else if |parts| == 1 then parts[0]
    else parts[0] + sep + Join(parts[1..], sep)
  }

  /** `s.replace(pat, rep)` with a string pattern: only the first occurrence is replaced. */
  function ReplaceFirst(s: string, pat: string, rep: string): (r: string)
    requires |pat| > 0
    ensures !Contains(s, pat) ==> r == s
    decreases |s|
  {
    if StartsWith(s, pat) then rep + s[|pat|..]
    else if |s| == 0 then s
    else [s[0]] + ReplaceFirst(s[1..], pat, rep)
  }

  /** Position `k` is where `pat` first occurs in `s`. */
  predicate FirstOccurrence(s: string, pat: string, k: int) {
    OccursAt(s, pat, k) && forall j :: 0 <= j < k ==> !OccursAt(s, pat, j)
  }

  /** A first occurrence in the tail of `s` is one position further along in `s`, when `s` does
      not itself start with `pat`. */
  lemma FirstOccurrenceStep(s: string, pat: string, k: int)
    requires |s| > 0 && !StartsWith(s, pat)
    requires FirstOccurrence(s[1..], pat, k)
    ensures FirstOccurrence(s, pat, k + 1)
  {
    assert s[k + 1..k + 1 + |pat|] == s[1..][k..k + |pat|];
    forall j | 0 <= j < k + 1
      ensures !OccursAt(s, pat, j)
    {
      if j == 0 {
        assert |pat| <= |s| ==> s[0..|pat|] == s[..|pat|];
      } else if OccursAt(s, pat, j) {
        assert s[1..][j - 1..j - 1 + |pat|] == s[j..j + |pat|];
        assert OccursAt(s[1..], pat, j - 1);
      }
    }
  }

  /** Replacing at position `k` of the tail is replacing at position `k + 1` of the whole. */
  lemma ReplaceFirstStep(s: string, pat: string, rep: string, k: nat)
    requires |pat| > 0 && |s| > 0 && !StartsWith(s, pat)
    requires k + |pat| <= |s| - 1
    requires ReplaceFirst(s[1..], pat, rep) == s[1..][..k] + rep + s[1..][k + |pat|..]
    ensures ReplaceFirst(s, pat, rep) == s[..k + 1] + rep + s[k + 1 + |pat|..]
  {
    var tail, head, after := s[1..], s[..k + 1], s[k + 1 + |pat|..];
    assert ReplaceFirst(s, pat, rep) == [s[0]] + ReplaceFirst(tail, pat, rep);
    assert head == [s[0]] + tail[..k];
    assert after == tail[k + |pat|..];
    AppendAssociative([s[0]], tail[..k] + rep, after);
    AppendAssociative([s[0]], tail[..k], rep);
  }

  /** Sequence concatenation regroups. */
  lemma AppendAssociative<T>(a: seq<T>, b: seq<T>, c: seq<T>)
    ensures a + (b + c) == (a + b) + c
  {
  }

  /** When `pat` occurs in `s`, `ReplaceFirst` rewrites its first occurrence and leaves the rest. */
  lemma {:induction false} ReplaceFirstAtFirstMatch(s: string, pat: string, rep: string)
    requires |pat| > 0
    requires Contains(s, pat)
    ensures exists k :: FirstOccurrence(s, pat, k) && ReplaceFirst(s, pat, rep) == s[..k] + rep + s[k + |pat|..]
    decreases |s|
  {
    if StartsWith(s, pat) {
      assert s[0..|pat|] == s[..|pat|];
      assert FirstOccurrence(s, pat, 0);
      assert ReplaceFirst(s, pat, rep) == s[..0] + rep + s[0 + |pat|..];
    } else {
      ReplaceFirstAtFirstMatch(s[1..], pat, rep);
      var k :| FirstOccurrence(s[1..], pat, k) && ReplaceFirst(s[1..], pat, rep) == s[1..][..k] + rep + s[1..][k + |pat|..];
      FirstOccurrenceStep(s, pat, k);
      ReplaceFirstStep(s, pat, rep, k);
    }
  }

  /** Index of the first `c` in `s`, or `|s|` when there is none. */
  function IndexOf(s: string, c: char): (k: nat)
    ensures k <= |s|
    ensures forall j :: 0 <= j < k ==> s[j] != c
    ensures k < |s| ==> s[k] == c
    decreases |s|
  {
    if |s| == 0 then 0 else if s[0] == c then 0 else 1 + IndexOf(s[1..], c)
  }

  /** `s.split(" ")[1] || ""`: the text between the first and the second space. */
  function SecondWord(s: string): (w: string)
    ensures ' ' !in w
    ensures ' ' !in s ==> w == ""
    ensures ' ' in s ==> var rest := s[IndexOf(s, ' ') + 1..];
                         StartsWith(rest, w) && (|w| == |rest| || rest[|w|] == ' ')
  {
    var k := IndexOf(s, ' ');
    if k == |s| then ""
    else
      var rest := s[k + 1..];
      var j := IndexOf(rest, ' ');
      assert forall i :: 0 <= i < j ==> rest[..j][i] != ' ';
      rest[..j]
  }
}
