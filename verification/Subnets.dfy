/** Reading lists of subnets out of configuration attributes (`parse_subnet_bytes`, `add_unique_string`). */
module Subnets {
  import opened Wrappers
  import opened Sequences
  import opened Prefix
  import Digits = Text

  /** An address and a mask. */
  datatype Subnet = Subnet(addr: Word, mask: Word)

  /** The text the plugin keeps for a subnet. */
  function Text(s: Subnet): string { Render(And(s.addr, s.mask), LeadingOnes(s.mask)) }

  /** The record in eight bytes. */
  function SubnetOf(window: seq<byte>): Subnet
    requires |window| == 8
  {
    Subnet(WordOf(window[..4]), WordOf(window[4..]))
  }

  function WindowText(window: seq<byte>): string {
    if |window| == 8 then Text(SubnetOf(window)) else ""
  }

  /** `add_unique_string`: an empty text and a repeated one are ignored. */
  function AddUnique(list: seq<string>, value: string): (r: seq<string>)
    ensures Distinct(list) ==> Distinct(r)
    ensures forall x :: x in r <==> x in list || (x == value && value != "")
  {
    if value == "" || value in list then list else list + [value]
  }

  function AddAll(list: seq<string>, values: seq<string>): (r: seq<string>)
    ensures Distinct(list) ==> Distinct(r)
    decreases |values|
  {
    if values == [] then list else AddAll(AddUnique(list, values[0]), values[1..])
  }

  lemma {:induction false} AddAllMembers(list: seq<string>, values: seq<string>)
    requires "" !in values
    ensures forall x :: x in AddAll(list, values) <==> x in list || x in values
    decreases |values|
  {
    if values != [] {
      assert values == [values[0]] + values[1..];
      AddAllMembers(AddUnique(list, values[0]), values[1..]);
    }
  }

  /** What was there stays in front. */
  lemma {:induction false} AddAllGrows(list: seq<string>, values: seq<string>)
    ensures list <= AddAll(list, values)
    decreases |values|
  {
    if values != [] { AddAllGrows(AddUnique(list, values[0]), values[1..]); }
  }

  lemma {:induction false} AddAllTwice(list: seq<string>, u: seq<string>, v: seq<string>)
    ensures AddAll(AddAll(list, u), v) == AddAll(list, u + v)
    decreases |u|
  {
    if u == [] {
      assert u + v == v;
    } else {
      assert (u + v)[1..] == u[1..] + v;
      AddAllTwice(AddUnique(list, u[0]), u[1..], v);
    }
  }

  /** Copying a duplicate-free list behind others changes nothing. */
  lemma {:induction false} AddAllDistinct(list: seq<string>, values: seq<string>)
    requires Distinct(list + values) && "" !in values
    ensures AddAll(list, values) == list + values
    decreases |values|
  {
    if values == [] {
      assert list + values == list;
    } else {
      assert (list + [values[0]]) + values[1..] == list + values;
      assert values[0] !in list by {
        assert (list + values)[|list|] == values[0];
        assert forall i | 0 <= i < |list| :: (list + values)[i] == list[i];
      }
      AddAllDistinct(list + [values[0]], values[1..]);
    }
  }

  /** `add_unique_string` with its search loop. */
  method AddUniqueString(list: seq<string>, value: string) returns (r: seq<string>)
    ensures r == AddUnique(list, value)
  {
    if value == "" {
      return list;
    }
    for i := 0 to |list|
      invariant value !in list[..i]
    {
      if list[i] == value {
        return list;
      }
    }
    r := list + [value];
  }

  /** The records a pass over the bytes visits, `step` bytes apart; the last one may be cut short after its eight bytes. */
  function Windows(data: seq<byte>, step: nat): (ws: seq<seq<byte>>)
    requires step >= 1
    ensures forall i | 0 <= i < |ws| :: |ws[i]| == 8
    decreases |data|
  {
    if |data| < 8 then []
    else [data[..8]] + if |data| < step then [] else Windows(data[step..], step)
  }

  lemma SliceShift(data: seq<byte>, step: nat, at: nat)
    requires step + at + 8 <= |data|
    ensures data[step..][at..at + 8] == data[step + at..step + at + 8]
  {}

  lemma OneStepBack(step: nat, i: nat, at: nat)
    requires i > 0 && at == i * step
    ensures at >= step && at - step == (i - 1) * step
  {}

  lemma NextWindow(data: seq<byte>, step: nat, i: nat)
    requires step >= 1 && 0 < i < |Windows(data, step)|
    ensures |data| >= step && i - 1 < |Windows(data[step..], step)|
    ensures Windows(data, step)[i] == Windows(data[step..], step)[i - 1]
  {}

  /** The `i`-th record is read at offset `i * step`, inside the bytes. */
  lemma {:induction false} WindowAt(data: seq<byte>, step: nat, i: nat, at: nat)
    requires step >= 1 && i < |Windows(data, step)| && at == i * step
    ensures at + 8 <= |data| && Windows(data, step)[i] == data[at..at + 8]
    decreases |data|
  {
    if i > 0 {
      OneStepBack(step, i, at);
      NextWindow(data, step, i);
      WindowAt(data[step..], step, i - 1, at - step);
      SliceShift(data, step, at - step);
    }
  }

  /** How many records the two strides of the protocol visit. */
  lemma {:induction false} NarrowCount(data: seq<byte>)
    ensures |Windows(data, 8)| == |data| / 8
    decreases |data|
  {
    if |data| >= 8 { NarrowCount(data[8..]); }
  }

  lemma {:induction false} WideCount(data: seq<byte>)
    ensures |Windows(data, 14)| == |data| / 14 + if |data| % 14 >= 8 then 1 else 0
    decreases |data|
  {
    if |data| >= 14 { WideCount(data[14..]); }
  }

  /** What the loop goes on with after a record: nothing when a stride does not fit. */
  function Skip(data: seq<byte>, stride: int): (rest: seq<byte>)
    requires |data| >= 8
    ensures |rest| < |data|
  {
    if stride > 0 then (if |data| < stride then [] else data[stride..])
    else if |data| >= 14 then data[14..]
    else data[8..]
  }

  function Visited(data: seq<byte>, stride: int): seq<seq<byte>>
    decreases |data|
  {
    if |data| < 8 then [] else [data[..8]] + Visited(Skip(data, stride), stride)
  }

  /** The loop visits the records its stride asks for. */
  lemma {:induction false} StrideVisits(data: seq<byte>, stride: nat)
    requires stride >= 1
    ensures Visited(data, stride) == Windows(data, stride)
    decreases |data|
  {
    if |data| >= 8 && |data| >= stride { StrideVisits(data[stride..], stride); }
  }

  /** No stride is the same as a stride of fourteen, on every byte string. */
  lemma {:induction false} NoStrideIsFourteen(data: seq<byte>)
    ensures Visited(data, 0) == Windows(data, 14)
    decreases |data|
  {
    if |data| >= 14 { NoStrideIsFourteen(data[14..]); }
  }

  /** The texts of the records. */
  function Texts(windows: seq<seq<byte>>): (r: seq<string>)
    ensures |r| == |windows|
  {
    Map(WindowText, windows)
  }

  /** `format_prefix`: the text of one record. */
  method FormatPrefix(window: seq<byte>) returns (prefix: string)
    requires |window| == 8
    ensures prefix == WindowText(window)
  {
    var mask := WordOf(window[4..]);
    var length := MaskToPrefixLen(mask);
    prefix := Render(And(WordOf(window[..4]), mask), length);
  }

  lemma OneMore(list: seq<string>, w: seq<byte>, rest: seq<seq<byte>>)
    ensures AddAll(list, Texts([w] + rest)) == AddAll(AddUnique(list, WindowText(w)), Texts(rest))
  {
    assert Texts([w] + rest)[1..] == Texts(rest);
  }

  method SkipRecord(data: seq<byte>, stride: int) returns (rest: seq<byte>)
    requires |data| >= 8
    ensures rest == Skip(data, stride)
  {
    if stride > 0 {
      if |data| < stride {
        return [];
      }
      return data[stride..];
    }
    if |data| >= 14 {
      return data[14..];
    }
    rest := data[8..];
  }

  /** The loop of `parse_subnet_bytes`. It never reads past the end. */
  method ParseSubnetBytes(given: seq<string>, chunk: seq<byte>, stride: int) returns (list: seq<string>)
    ensures list == AddAll(given, Texts(Visited(chunk, stride)))
  {
    var data := chunk;
    list := given;
    while |data| >= 8
      invariant AddAll(list, Texts(Visited(data, stride))) == AddAll(given, Texts(Visited(chunk, stride)))
      decreases |data|
    {
      var prefix := FormatPrefix(data[..8]);
      OneMore(list, data[..8], Visited(Skip(data, stride), stride));
      list := AddUniqueString(list, prefix);
      data := SkipRecord(data, stride);
    }
  }

  /** The text kept for a record with a contiguous mask of length `n`. */
  function RecordText(record: seq<byte>, n: nat): string
    requires |record| >= 8
  {
    Dotted(NetworkByte(record[0], n, 0), NetworkByte(record[1], n, 1), NetworkByte(record[2], n, 2), NetworkByte(record[3], n, 3),
           "/" + Digits.Decimal(n))
  }

  lemma WindowIsRecord(record: seq<byte>, n: nat)
    requires |record| == 8 && IsMaskOf(record[4..], n)
    ensures WindowText(record) == RecordText(record, n) && RecordText(record, n) != ""
  {
    PrintedPrefix(record[..4], record[4..], n);
  }

  /** The record at `i` times the stride, wherever its bytes stand, is kept in this form. */
  lemma RecordKept(list: seq<string>, data: seq<byte>, stride: nat, i: nat, at: nat, n: nat)
    requires stride >= 1 && i < |Windows(data, stride)| && at == i * stride
    ensures at + 8 <= |data|
    ensures IsMaskOf(data[at + 4..at + 8], n) ==>
              WindowText(data[at..at + 8]) == RecordText(data[at..at + 8], n)
              && RecordText(data[at..at + 8], n) in AddAll(list, Texts(Visited(data, stride)))
  {
    WindowAt(data, stride, i, at);
    if IsMaskOf(data[at + 4..at + 8], n) {
      var record := data[at..at + 8];
      assert record[4..] == data[at + 4..at + 8];
      WindowIsRecord(record, n);
      StrideVisits(data, stride);
      TextAdded(list, Windows(data, stride), i);
    }
  }

  lemma TextAdded(list: seq<string>, windows: seq<seq<byte>>, i: nat)
    requires i < |windows| && WindowText(windows[i]) != "" && forall j | 0 <= j < |windows| :: |windows[j]| == 8
    ensures WindowText(windows[i]) in AddAll(list, Texts(windows))
  {
    assert Texts(windows)[i] == WindowText(windows[i]);
    AddsAll(list, Texts(windows), i);
  }

  lemma {:induction false} AddsAll(list: seq<string>, values: seq<string>, i: nat)
    requires i < |values| && values[i] != ""
    ensures values[i] in AddAll(list, values)
    decreases |values|
  {
    var next := AddUnique(list, values[0]);
    if i == 0 {
      StaysAdded(next, values[1..], values[0]);
    } else {
      AddsAll(next, values[1..], i - 1);
    }
  }

  lemma {:induction false} StaysAdded(list: seq<string>, values: seq<string>, x: string)
    requires x in list
    ensures x in AddAll(list, values)
    decreases |values|
  {
    if values != [] { StaysAdded(AddUnique(list, values[0]), values[1..], x); }
  }
}
