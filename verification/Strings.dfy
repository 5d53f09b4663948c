/** The few string operations the recorder relies on: decimal numbers, splitting and joining at a comma, trimming
    spaces. */
module Strings {
  import opened Bytes

  predicate IsDigit(c: char) {
    '0' <= c <= '9'
  }

  function Digit(d: nat): (c: char)
    requires d < 10
    ensures IsDigit(c) && (c as int) - ('0' as int) == d
  {
    ('0' as int + d) as char
  }

  /** strconv.Itoa of a non-negative number. */
  function Itoa(n: nat): (s: string)
    ensures s != [] && forall i :: 0 <= i < |s| ==> IsDigit(s[i])
  {
    if n < 10 then [Digit(n)] else Itoa(n / 10) + [Digit(n % 10)]
  }

  /** The value of a string of decimal digits. */
  function DigitsValue(s: string): (n: nat)
    requires forall i :: 0 <= i < |s| ==> IsDigit(s[i])
  {
    if s == [] then 0 else
      var last := s[|s| - 1];
      assert IsDigit(last);
      DigitsValue(s[..|s| - 1]) * 10 + (last as int - '0' as int)
  }

  /** strconv.Atoi: an optional sign and at least one digit. */
  function Atoi(s: string): (n: Option<int>)
  {
    var body := if s != [] && (s[0] == '-' || s[0] == '+') then s[1..] else s;
    if body == [] || exists i :: 0 <= i < |body| && !IsDigit(body[i]) then None
    else
      var value: int := DigitsValue(body);
      Some(if s[0] == '-' then -value else value)
  }

  lemma {:induction false} ItoaValue(n: nat)
    ensures DigitsValue(Itoa(n)) == n
  {
    if n >= 10 {
      ItoaValue(n / 10);
      var s := Itoa(n);
      assert s[..|s| - 1] == Itoa(n / 10);
    } else {
      assert Itoa(n)[..0] == [];
    }
  }

  lemma AtoiItoa(n: nat)
    ensures Atoi(Itoa(n)) == Some(n)
  {
    ItoaValue(n);
    var s := Itoa(n);
    assert IsDigit(s[0]);
  }

  /** strings.Join with a comma. */
  function Join(parts: seq<string>): (s: string)
  {
    if parts == [] then "" else if |parts| == 1 then parts[0] else parts[0] + "," + Join(parts[1..])
  }

  /** strings.Split at commas: one part more than there are commas. */
  function Split(s: string): (parts: seq<string>)
    ensures parts != []
  {
    if s == "" then [""]
    else
      var rest := Split(s[1..]);
      if s[0] == ',' then [""] + rest else [[s[0]] + rest[0]] + rest[1..]
  }

  lemma {:induction false} SplitPrepend(head: string, rest: string)
    requires ',' !in head
    ensures Split(head + "," + rest) == [head] + Split(rest)
  {
    if head == "" {
      assert head + "," + rest == "," + rest;
      assert ("," + rest)[1..] == rest;
    } else {
      var s := head + "," + rest;
      assert s[1..] == head[1..] + "," + rest;
      SplitPrepend(head[1..], rest);
      assert [s[0]] + head[1..] == head;
    }
  }

  lemma {:induction false} SplitPlain(s: string)
    requires ',' !in s
    ensures Split(s) == [s]
  {
    if s != "" {
      SplitPlain(s[1..]);
      assert [s[0]] + s[1..] == s;
    }
  }

  /** Splitting undoes joining, for parts without a comma. */
  lemma {:induction false} SplitJoin(parts: seq<string>)
    requires parts != [] && forall i :: 0 <= i < |parts| ==> ',' !in parts[i]
    ensures Split(Join(parts)) == parts
  {
    if |parts| == 1 {
      SplitPlain(parts[0]);
    } else {
      SplitJoin(parts[1..]);
      SplitPrepend(parts[0], Join(parts[1..]));
      assert parts == [parts[0]] + parts[1..];
    }
  }

  /** unicode.IsSpace. */
  predicate IsSpace(c: char) {
    var u := c as int;
    9 <= u <= 13 || u == 32 || u == 0x85 || u == 0xA0 || u == 0x1680 || 0x2000 <= u <= 0x200A || u == 0x2028
    || u == 0x2029 || u == 0x202F
    || u == 0x205F || u == 0x3000
  }

  function TrimLeft(s: string): (t: string)
    ensures t == [] || !IsSpace(t[0])
  {
    if s != [] && IsSpace(s[0]) then TrimLeft(s[1..]) else s
  }

  function TrimRight(s: string): (t: string)
    ensures t <= s && (t == [] || !IsSpace(t[|t| - 1]))
  {
    if s != [] && IsSpace(s[|s| - 1]) then TrimRight(s[..|s| - 1]) else s
  }

  /** strings.TrimSpace. */
  function TrimSpace(s: string): (t: string)
  {
    TrimRight(TrimLeft(s))
  }

  predicate Trimmed(s: string) {
    s == [] || (!IsSpace(s[0]) && !IsSpace(s[|s| - 1]))
  }

  lemma TrimmedStays(s: string)
    requires Trimmed(s)
    ensures TrimSpace(s) == s
  {
  }

  lemma TrimSpaceTrims(s: string)
    ensures Trimmed(TrimSpace(s))
  {
    var t := TrimSpace(s);
    if t != [] {
      assert t[0] == TrimLeft(s)[0];
    }
  }

  /** The non-empty elements of a list, trimmed. */
  function NonEmpty(parts: seq<string>): (r: seq<string>)
  {
    if parts == [] then []
    else
      var d := TrimSpace(parts[0]);
      if d != "" then [d] + NonEmpty(parts[1..]) else NonEmpty(parts[1..])
  }

  /** A `sessions` value read as a list. */
  function Digests(value: string): (ds: seq<string>)
  {
    NonEmpty(Split(value))
  }

  /** What a list of digests looks like: something without commas or surrounding spaces in every place. */
  ghost predicate DigestList(ds: seq<string>) {
    forall i :: 0 <= i < |ds| ==> ds[i] != "" && ',' !in ds[i] && Trimmed(ds[i])
  }

  lemma {:induction false} NonEmptyStays(ds: seq<string>)
    requires DigestList(ds)
    ensures NonEmpty(ds) == ds
  {
    if ds != [] {
      TrimmedStays(ds[0]);
      NonEmptyStays(ds[1..]);
    }
  }

  /** Reading undoes joining. */
  lemma DigestsOfJoin(ds: seq<string>)
    requires DigestList(ds)
    ensures Digests(Join(ds)) == ds
  {
    if ds == [] {
      assert Split("") == [""];
      assert NonEmpty([""]) == NonEmpty([""][1..]);
    } else {
      SplitJoin(ds);
      NonEmptyStays(ds);
    }
  }

  lemma {:induction false} SplitHasNoCommas(s: string)
    ensures forall i :: 0 <= i < |Split(s)| ==> ',' !in Split(s)[i]
  {
    if s != "" {
      SplitHasNoCommas(s[1..]);
      var rest := Split(s[1..]);
      assert ',' !in rest[0];
    }
  }

  lemma {:induction false} NonEmptyIsList(parts: seq<string>)
    requires forall i :: 0 <= i < |parts| ==> ',' !in parts[i]
    ensures DigestList(NonEmpty(parts))
  {
    if parts != [] {
      NonEmptyIsList(parts[1..]);
      TrimSpaceTrims(parts[0]);
      TrimSpaceKeepsOut(parts[0], ',');
    }
  }

  lemma {:induction false} TrimLeftKeepsOut(s: string, c: char)
    requires c !in s
    ensures c !in TrimLeft(s)
  {
    if s != [] && IsSpace(s[0]) {
      TrimLeftKeepsOut(s[1..], c);
    }
  }

  lemma TrimSpaceKeepsOut(s: string, c: char)
    requires c !in s
    ensures c !in TrimSpace(s)
  {
    TrimLeftKeepsOut(s, c);
    assert forall i :: 0 <= i < |TrimSpace(s)| ==> TrimSpace(s)[i] == TrimLeft(s)[i];
  }

  /** Whatever was stored, what is read is a digest list. */
  lemma DigestsAreList(value: string)
    ensures DigestList(Digests(value))
  {
    SplitHasNoCommas(value);
    NonEmptyIsList(Split(value));
  }

  /** Joining undoes splitting, for any text. */
  lemma {:induction false} JoinSplit(s: string)
    ensures Join(Split(s)) == s
  {
    if s != "" {
      JoinSplit(s[1..]);
      var rest := Split(s[1..]);
      assert s == [s[0]] + s[1..];
      if s[0] == ',' {
        assert ([""] + rest)[1..] == rest;
      } else {
        var parts := [[s[0]] + rest[0]] + rest[1..];
        assert parts[1..] == rest[1..];
      }
    }
  }

  predicate AllSpace(s: string) {
    forall i :: 0 <= i < |s| ==> IsSpace(s[i])
  }

  lemma {:induction false} TrimLeftIs(left: string, s: string)
    requires AllSpace(left) && (s == [] || !IsSpace(s[0]))
    ensures TrimLeft(left + s) == s
  {
    if left == [] {
      assert left + s == s;
    } else {
      assert (left + s)[1..] == left[1..] + s;
      TrimLeftIs(left[1..], s);
    }
  }

  lemma {:induction false} TrimRightIs(s: string, right: string)
    requires AllSpace(right) && (s == [] || !IsSpace(s[|s| - 1]))
    ensures TrimRight(s + right) == s
    decreases |right|
  {
    if right == [] {
      assert s + right == s;
    } else {
      var n := |right| - 1;
      assert (s + right)[..|s + right| - 1] == s + right[..n];
      TrimRightIs(s, right[..n]);
    }
  }

  /** Exactly the surrounding spaces go. */
  lemma TrimSpaceIs(left: string, s: string, right: string)
    requires AllSpace(left) && AllSpace(right) && Trimmed(s) && (s == [] ==> right == [])
    ensures TrimSpace(left + s + right) == s
  {
    assert left + s + right == left + (s + right);
    TrimLeftIs(left, s + right);
    TrimRightIs(s, right);
  }

  /** A list is read element by element, each trimmed, the empty ones left out. */
  lemma {:induction false} NonEmptyInOrder(a: seq<string>, b: seq<string>, part: string)
    ensures NonEmpty(a + b) == NonEmpty(a) + NonEmpty(b)
    ensures NonEmpty([]) == [] && NonEmpty([part]) == if TrimSpace(part) == "" then [] else [TrimSpace(part)]
  {
    assert [part][1..] == [];
    if a == [] {
      assert a + b == b;
    } else {
      assert (a + b)[1..] == a[1..] + b;
      NonEmptyInOrder(a[1..], b, part);
    }
  }
}
