/** The device annotation: a list of device numbers printed as "0-0-2" by the
    allocator and parsed back by every device. */
module IdStrings {
  import opened Kube

  predicate IsDigit(c: char) {
    '0' <= c <= '9'
  }

  predicate AllDigits(s: string) {
    forall i :: 0 <= i < |s| ==> IsDigit(s[i])
  }

  function Digit(d: nat): (c: char)
    requires d < 10
    ensures IsDigit(c)
  {
    '0' + d as char
  }

  /** strconv.Itoa on a non-negative number. */
  function Itoa(n: nat): string {
    if n < 10 then [Digit(n)] else Itoa(n / 10) + [Digit(n % 10)]
  }

  function Decimal(s: string): (v: nat)
    requires AllDigits(s)
  {
    if s == "" then 0
    else 10 * Decimal(s[..|s| - 1]) + (s[|s| - 1] - '0') as nat
  }

  /** strconv.Atoi: an optional sign, at least one digit, nothing else, and a
      value that fits a 64-bit int. */
  function Atoi(s: string): Option<int> {
    var signed := s != "" && (s[0] == '-' || s[0] == '+');
    var body := if signed then s[1..] else s;
    if body == "" || !AllDigits(body) then None
    else
      var d: int := Decimal(body);
      var v := if s[0] == '-' then -d else d;
      if MIN_INT64 <= v <= MAX_INT64 then Some(v) else None
  }

  /** strings.Split(s, "-"). */
  function SplitDash(s: string): (pieces: seq<string>)
    ensures pieces != []
  {
    if s == "" then [""]
    else
      var rest := SplitDash(s[1..]);
      if s[0] == '-' then [""] + rest else [[s[0]] + rest[0]] + rest[1..]
  }

  datatype ParseResult = Ids(ids: seq<int>) | BadId(parsed: seq<int>)

  function ParsePieces(pieces: seq<string>): ParseResult {
    if pieces == [] then Ids([])
    else
      match ParsePieces(pieces[..|pieces| - 1])
      case BadId(parsed) => BadId(parsed)
      case Ids(ids) =>
        match Atoi(pieces[|pieces| - 1])
        case Some(idx) => Ids(ids + [idx])
        case None => BadId(ids)
  }

  function ParseIds(id: string): ParseResult {
    if id == "" then Ids([]) else ParsePieces(SplitDash(id))
  }

  /** The text AllocateGpuId prints for a non-empty device list. */
  function JoinIds(ids: seq<nat>): string
    requires ids != []
  {
    if |ids| == 1 then Itoa(ids[0])
    else JoinIds(ids[..|ids| - 1]) + "-" + Itoa(ids[|ids| - 1])
  }

  method GpuIdStrToIntList(id: string) returns (r: ParseResult)
    ensures r == ParseIds(id)
  {
    if |id| <= 0 {
      return Ids([]);
    }
    var res := SplitDash(id);
    var idl: seq<int> := [];
    for i := 0 to |res|
      invariant ParsePieces(res[..i]) == Ids(idl)
    {
      assert res[..i + 1][..i] == res[..i];
      match Atoi(res[i]) {
        case Some(idx) => idl := idl + [idx];
        case None =>
          BadPrefix(res, i + 1);
          return BadId(idl);
      }
    }
    assert res[..|res|] == res;
    return Ids(idl);
  }

  lemma {:induction false} BadPrefix(pieces: seq<string>, i: nat)
    requires i <= |pieces| && ParsePieces(pieces[..i]).BadId?
    ensures ParsePieces(pieces) == ParsePieces(pieces[..i])
    decreases |pieces| - i
  {
    if i == |pieces| {
      assert pieces[..i] == pieces;
    } else {
      assert pieces[..i + 1][..i] == pieces[..i];
      BadPrefix(pieces, i + 1);
    }
  }

  lemma {:induction false} ItoaDigits(n: nat)
    ensures Itoa(n) != "" && AllDigits(Itoa(n)) && Decimal(Itoa(n)) == n
  {
    if n < 10 {
      assert Itoa(n)[..0] == "";
    } else {
      ItoaDigits(n / 10);
      assert Itoa(n)[..|Itoa(n)| - 1] == Itoa(n / 10);
    }
  }

  lemma AtoiItoa(n: nat)
    requires n <= MAX_INT64
    ensures Atoi(Itoa(n)) == Some(n)
  {
    ItoaDigits(n);
  }

  /** A number may carry a plus sign, and nothing but digits may follow its
      first character, which is a digit or a sign; a sign alone is no number. */
  lemma AtoiTexts(s: string)
    ensures s != "" && AllDigits(s) && Decimal(s) <= MAX_INT64 ==> Atoi(s) == Some(Decimal(s)) && Atoi("+" + s) == Some(Decimal(s))
    ensures s == "" || s == "+" || s == "-" ==> Atoi(s) == None
    ensures s != "" && !IsDigit(s[0]) && s[0] != '+' && s[0] != '-' ==> Atoi(s) == None
    ensures (exists i :: 1 <= i < |s| && !IsDigit(s[i])) ==> Atoi(s) == None
  {
    assert ("+" + s)[1..] == s;
    if i :| 1 <= i < |s| && !IsDigit(s[i]) {
      assert s[1..][i - 1] == s[i];
    }
  }

  lemma {:induction false} SplitAppend(a: string, b: string)
    requires '-' !in b
    ensures SplitDash(a + "-" + b) == SplitDash(a) + [b]
  {
    if a == "" {
      SplitNoDash(b);
      assert a + "-" + b == "-" + b;
      assert ("-" + b)[1..] == b;
    } else {
      var s := a + "-" + b;
      assert s[1..] == a[1..] + "-" + b;
      SplitAppend(a[1..], b);
    }
  }

  lemma {:induction false} SplitNoDash(b: string)
    requires '-' !in b
    ensures SplitDash(b) == [b]
  {
    if b != "" {
      SplitNoDash(b[1..]);
      assert b == [b[0]] + b[1..];
    }
  }

  lemma OneIdRoundTrip(id: nat)
    requires id <= MAX_INT64
    ensures Itoa(id) != "" && ParseIds(Itoa(id)) == Ids([id])
  {
    ItoaDigits(id);
    AtoiItoa(id);
    SplitNoDash(Itoa(id));
    var pieces := [Itoa(id)];
    assert SplitDash(Itoa(id)) == pieces && pieces[..0] == [];
    assert ParsePieces(pieces[..0]) == Ids([]);
  }

  /** One more index after a dash is one more index in the list. */
  lemma ParseOneMore(text: string, ids: seq<int>, last: nat)
    requires text != "" && ParseIds(text) == Ids(ids) && last <= MAX_INT64
    ensures ParseIds(text + "-" + Itoa(last)) == Ids(ids + [last])
  {
    ItoaDigits(last);
    AtoiItoa(last);
    SplitAppend(text, Itoa(last));
    var pieces := SplitDash(text) + [Itoa(last)];
    assert pieces[..|pieces| - 1] == SplitDash(text);
    assert ParsePieces(pieces) == Ids(ids + [last]);
  }

  /** Parsing what the allocator printed gives back the same list, for every
      non-empty list of indices a 64-bit int can hold. */
  lemma {:induction false} RoundTrip(ids: seq<nat>)
    requires ids != [] && forall i :: 0 <= i < |ids| ==> ids[i] <= MAX_INT64
    ensures JoinIds(ids) != ""
    ensures ParseIds(JoinIds(ids)) == Ids(ids)
    decreases |ids|
  {
    var init, last := ids[..|ids| - 1], ids[|ids| - 1];
    assert ids == init + [last];
    if init == [] {
      OneIdRoundTrip(last);
      assert ids == [last];
    } else {
      RoundTrip(init);
      ParseOneMore(JoinIds(init), init, last);
    }
  }

  lemma {:induction false} PiecesHaveNoDash(s: string)
    ensures forall i :: 0 <= i < |SplitDash(s)| ==> '-' !in SplitDash(s)[i]
  {
    if s != "" {
      PiecesHaveNoDash(s[1..]);
    }
  }

  lemma {:induction false} PiecesNonNegative(pieces: seq<string>)
    requires forall i :: 0 <= i < |pieces| ==> '-' !in pieces[i]
    ensures ParsePieces(pieces).Ids? ==>
              |ParsePieces(pieces).ids| == |pieces| &&
              forall x :: x in ParsePieces(pieces).ids ==> 0 <= x <= MAX_INT64
  {
    if pieces != [] {
      PiecesNonNegative(pieces[..|pieces| - 1]);
    }
  }

  /** No string parses to a negative index, although Atoi alone accepts a
      minus sign; a non-empty string that parses names at least one device. */
  lemma ParsedIdsNonNegative(id: string)
    ensures ParseIds(id).Ids? ==> forall x :: x in ParseIds(id).ids ==> 0 <= x <= MAX_INT64
    ensures id != "" && ParseIds(id).Ids? ==> ParseIds(id).ids != []
  {
    if id != "" {
      PiecesHaveNoDash(id);
      PiecesNonNegative(SplitDash(id));
    }
  }
}
