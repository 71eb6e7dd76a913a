/** The text form of a group's path ids: SQLite's `GROUP_CONCAT(p.id)` (decimal
    ids joined by ',') and its parse `[int(pid) for pid in s.split(',')]`. */
module IdText {
  import opened ChiTypes

  predicate IsDigit(c: char) { '0' <= c <= '9' }

  predicate AllDigits(s: string) { forall i :: 0 <= i < |s| ==> IsDigit(s[i]) }

  function DigitChar(d: nat): char
    requires d < 10
  {
    ('0' as int + d) as char
  }

  /** The decimal text SQLite writes for a non-negative integer. */
  function NatToString(n: nat): (s: string)
    ensures |s| > 0 && AllDigits(s)
  {
    if n < 10 then [DigitChar(n)] else NatToString(n / 10) + [DigitChar(n % 10)]
  }

  /** The value of a string of decimal digits (leading zeros allowed, as `int` accepts them). */
  function DigitsValue(s: string): nat
    requires AllDigits(s)
  {
    if |s| == 0 then 0
    else DigitsValue(s[..|s| - 1]) * 10 + (s[|s| - 1] as int - '0' as int)
  }

  /** `int(pid)` on one piece: `None` stands for the ValueError raised on an
      empty or non-decimal piece. */
  function ParseNat(s: string): Option<nat> {
    if |s| > 0 && AllDigits(s) then Some(DigitsValue(s)) else None
  }

  /** `GROUP_CONCAT(id)` with its default separator ','. */
  function JoinIds(ids: seq<nat>): string {
    if |ids| == 0 then ""
    else if |ids| == 1 then NatToString(ids[0])
    else NatToString(ids[0]) + "," + JoinIds(ids[1..])
  }

  /** Python's `s.split(',')`: the pieces between commas, empty pieces included. */
  function SplitComma(s: string): (parts: seq<string>)
    ensures |parts| > 0
  {
    if |s| == 0 then [""]
    else if s[0] == ',' then [""] + SplitComma(s[1..])
    else
      var rest := SplitComma(s[1..]);
      [[s[0]] + rest[0]] + rest[1..]
  }

  /** `int` applied to every piece; `None` if any piece is not a decimal number. */
  function ParseAll(parts: seq<string>): Option<seq<nat>> {
    if |parts| == 0 then Some([])
    else match (ParseNat(parts[0]), ParseAll(parts[1..]))
      case (Some(n), Some(ns)) => Some([n] + ns)
      case _ => None
  }

  /** `[int(pid) for pid in s.split(',')]`. */
  function ParseIds(s: string): Option<seq<nat>> {
    ParseAll(SplitComma(s))
  }

  lemma {:induction false} DigitsValueOfNatToString(n: nat)
    ensures DigitsValue(NatToString(n)) == n
  {
    if n >= 10 {
      var s := NatToString(n / 10) + [DigitChar(n % 10)];
      assert s[..|s| - 1] == NatToString(n / 10);
      DigitsValueOfNatToString(n / 10);
    }
  }

  /** Reading back the text of a number gives the number. */
  lemma ParseNatOfNatToString(n: nat)
    ensures ParseNat(NatToString(n)) == Some(n)
  {
    DigitsValueOfNatToString(n);
  }

  /** A piece without commas is one piece. */
  lemma {:induction false} SplitWithoutComma(p: string)
    requires ',' !in p
    ensures SplitComma(p) == [p]
  {
    if |p| > 0 {
      assert p[0] != ',';
      SplitWithoutComma(p[1..]);
      assert [p[0]] + p[1..] == p;
    }
  }

  /** A comma-free piece followed by a comma splits off as the first piece. */
  lemma {:induction false} SplitAfterPiece(p: string, s: string)
    requires ',' !in p
    ensures SplitComma(p + "," + s) == [p] + SplitComma(s)
  {
    if |p| == 0 {
      assert p + "," + s == [','] + s;
      assert (p + "," + s)[1..] == s;
    } else {
      var t := p + "," + s;
      assert t[0] == p[0] && t[1..] == p[1..] + "," + s;
      SplitAfterPiece(p[1..], s);
      assert [p[0]] + p[1..] == p;
    }
  }

  lemma NoCommaInNumber(n: nat)
    ensures ',' !in NatToString(n)
  {
  }

  /** The parse of `GROUP_CONCAT` text gives back the group's ids, in order.
      SQLite emits one row per non-empty group, so the list is non-empty. */
  lemma {:induction false} ParseIdsJoinIds(ids: seq<nat>)
    requires |ids| > 0
    ensures ParseIds(JoinIds(ids)) == Some(ids)
  {
    NoCommaInNumber(ids[0]);
    ParseNatOfNatToString(ids[0]);
    if |ids| == 1 {
      SplitWithoutComma(NatToString(ids[0]));
      var piece := NatToString(ids[0]);
      assert [piece][1..] == [];
      assert ParseAll([piece]) == Some([ids[0]] + []);
      assert ids == [ids[0]] + [];
    } else {
      SplitAfterPiece(NatToString(ids[0]), JoinIds(ids[1..]));
      ParseIdsJoinIds(ids[1..]);
      assert [ids[0]] + ids[1..] == ids;
    }
  }
}
