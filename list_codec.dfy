/** Count-prefixed list serialisation: `PutListWithCount` and
    `GetListWithCount`. The same two methods appear, with identical bodies, in
    NetSerializationUtility.Collections.cs and NetSerializationExtensions.cs;
    this module models both. The element type's own `Serialize`/`Deserialize`
    are given as an `ElementCodec`. */
module ListCodec {
  import opened NetTypes
  import opened Wire

  /** What `writer.Put(element)` appends, and what `reader.Get<T>()` reads from the
      remaining bytes: the element and the number of bytes consumed, or `None`
      when the element cannot be read. */
  datatype ElementCodec<!T> = ElementCodec(put: T -> seq<byte>, get: seq<byte> -> Option<(T, nat)>)

  /** The element codec reads back exactly what it wrote, whatever follows. */
  ghost predicate ElementRoundTrips<T(!new)>(c: ElementCodec<T>)
  {
    forall x: T, rest: seq<byte> {:trigger c.get(c.put(x) + rest)} ::
      c.get(c.put(x) + rest) == Some((x, |c.put(x)|))
  }

  /** The elements' encodings, in index order. */
  function EncodeElements<T>(c: ElementCodec<T>, xs: seq<T>): seq<byte>
  {
    if xs == [] then [] else c.put(xs[0]) + EncodeElements(c, xs[1..])
  }

  /** The bytes `PutListWithCount` appends for `xs`: its count, then its elements. */
  function EncodeList<T>(c: ElementCodec<T>, xs: seq<T>): seq<byte>
    requires |xs| <= MaxInt32
  {
    EncodeInt32(|xs|) + EncodeElements(c, xs)
  }

  /** Reading `n` elements, one after the other, from the front of `b`: the
      elements and the bytes consumed, or `None` when one cannot be read. */
  function DecodeElements<T>(c: ElementCodec<T>, b: seq<byte>, n: nat): (r: Option<(seq<T>, nat)>)
    ensures r.Some? ==> |r.value.0| == n && r.value.1 <= |b|
    decreases n
  {
    if n == 0 then Some(([], 0))
    else match c.get(b)
      case None => None
      case Some((x, k)) =>
        if k > |b| then None
        else match DecodeElements(c, b[k..], n - 1)
          case None => None
          case Some((xs, m)) => Some(([x] + xs, k + m))
  }

  /** Reading back the elements written by `EncodeElements` reproduces them, in order. */
  lemma {:induction false} DecodeEncodeElements<T(!new)>(c: ElementCodec<T>, xs: seq<T>, rest: seq<byte>)
    requires ElementRoundTrips(c)
    ensures DecodeElements(c, EncodeElements(c, xs) + rest, |xs|) == Some((xs, |EncodeElements(c, xs)|))
  {
    if xs != [] {
      var b := EncodeElements(c, xs) + rest;
      var tail := EncodeElements(c, xs[1..]) + rest;
      var k := |c.put(xs[0])|;
      assert b == c.put(xs[0]) + tail;
      assert c.get(b) == Some((xs[0], k));
      assert b[k..] == tail;
      DecodeEncodeElements(c, xs[1..], rest);
      assert |EncodeElements(c, xs)| == k + |EncodeElements(c, xs[1..])|;
      assert [xs[0]] + xs[1..] == xs;
    }
  }

  /** The round trip for a whole list: the count, then every element. */
  lemma DecodeEncodeList<T(!new)>(c: ElementCodec<T>, xs: seq<T>, rest: seq<byte>)
    requires ElementRoundTrips(c) && |xs| <= MaxInt32
    ensures DecodeInt32(EncodeList(c, xs) + rest) == Some(|xs| as int32)
    ensures DecodeElements(c, (EncodeList(c, xs) + rest)[4..], |xs|) == Some((xs, |EncodeElements(c, xs)|))
  {
    var b := EncodeList(c, xs) + rest;
    assert b == EncodeInt32(|xs|) + (EncodeElements(c, xs) + rest);
    DecodeEncodeInt32(|xs|, EncodeElements(c, xs) + rest);
    assert b[4..] == EncodeElements(c, xs) + rest;
    DecodeEncodeElements(c, xs, rest);
  }

  /** A `List<T>` object: callers may pass one in to be refilled. */
  class ManagedList<T> {
    var items: seq<T>

    constructor (items: seq<T>)
      ensures this.items == items
    {
      this.items := items;
    }
  }

  /** `PutListWithCount`: a null list throws before anything is written; otherwise the
      count and then every element, in index order, are appended. */
  method PutListWithCount<T>(writer: Writer, list: ManagedList?<T>, c: ElementCodec<T>) returns (r: Outcome)
    requires list != null ==> |list.items| <= MaxInt32
    modifies writer
    ensures list == null ==> r == Fail(NullArgument) && writer.data == old(writer.data)
    ensures list != null ==> r == Ok && writer.data == old(writer.data) + EncodeList(c, list.items)
  {
    if list == null {
      return Fail(NullArgument);
    }
    writer.PutInt(|list.items|);
    var i := 0;
    while i < |list.items|
      invariant 0 <= i <= |list.items|
      invariant writer.data == old(writer.data) + EncodeInt32(|list.items|) + EncodeElements(c, list.items[..i])
    {
      EncodeElementsSnoc(c, list.items[..i], list.items[i]);
      assert list.items[..i + 1] == list.items[..i] + [list.items[i]];
      writer.PutBytes(c.put(list.items[i]));
      i := i + 1;
    }
    assert list.items[..i] == list.items;
    r := Ok;
  }

  lemma {:induction false} EncodeElementsSnoc<T>(c: ElementCodec<T>, xs: seq<T>, x: T)
    ensures EncodeElements(c, xs + [x]) == EncodeElements(c, xs) + c.put(x)
  {
    if xs != [] {
      assert (xs + [x])[1..] == xs[1..] + [x];
      EncodeElementsSnoc(c, xs[1..], x);
    } else {
      assert ([] + [x])[1..] == [];
    }
  }

  lemma {:induction false} DecodeElementsSnoc<T>(c: ElementCodec<T>, b: seq<byte>, n: nat, xs: seq<T>, m: nat, x: T, k: nat)
    requires DecodeElements(c, b, n) == Some((xs, m))
    requires m + k <= |b| && c.get(b[m..]) == Some((x, k))
    ensures DecodeElements(c, b, n + 1) == Some((xs + [x], m + k))
    decreases n
  {
    if n > 0 {
      var Some((y, j)) := c.get(b);
      var Some((ys, m')) := DecodeElements(c, b[j..], n - 1);
      assert b[j..][m'..] == b[m..];
      DecodeElementsSnoc(c, b[j..], n - 1, ys, m', x, k);
      assert [y] + (ys + [x]) == ([y] + ys) + [x];
    } else {
      assert b[m..] == b;
      assert DecodeElements(c, b[k..], 0) == Some(([], 0));
      assert [x] + [] == xs + [x];
    }
  }

  lemma {:induction false} DecodeElementsSnocFail<T>(c: ElementCodec<T>, b: seq<byte>, n: nat, xs: seq<T>, m: nat)
    requires DecodeElements(c, b, n) == Some((xs, m))
    requires c.get(b[m..]).None? || c.get(b[m..]).value.1 > |b| - m
    ensures DecodeElements(c, b, n + 1).None?
    decreases n
  {
    if n > 0 {
      var Some((y, j)) := c.get(b);
      var Some((ys, m')) := DecodeElements(c, b[j..], n - 1);
      assert b[j..][m'..] == b[m..];
      DecodeElementsSnocFail(c, b[j..], n - 1, ys, m');
    }
  }

  /** The element loop of `GetListWithCount`: appends `n` elements read one after
      the other, or stops at the first one that cannot be read. */
  method ReadElements<T>(reader: Reader, result: ManagedList<T>, n: nat, c: ElementCodec<T>) returns (ok: bool)
    requires reader.Valid() && result.items == []
    modifies reader, result
    ensures reader.Valid() && reader.source == old(reader.source)
    ensures var d := DecodeElements(c, old(reader.Remaining()), n);
            (ok <==> d.Some?) &&
            (ok ==> result.items == d.value.0 && reader.position == old(reader.position) + d.value.1)
  {
    ghost var start := reader.position;
    ghost var b := reader.Remaining();
    var i := 0;
    while i < n
      invariant 0 <= i <= n
      invariant reader.Valid() && reader.source == old(reader.source) && start <= reader.position
      invariant b == reader.source[start..]
      invariant DecodeElements(c, b, i) == Some((result.items, reader.position - start))
    {
      ghost var m := reader.position - start;
      assert b[m..] == reader.Remaining();
      var e := c.get(reader.Remaining());
      if e.None? || e.value.1 > |reader.Remaining()| {
        DecodeElementsSnocFail(c, b, i, result.items, m);
        DecodeElementsPrefixFails(c, b, i + 1, n);
        return false;
      }
      DecodeElementsSnoc(c, b, i, result.items, m, e.value.0, e.value.1);
      result.items := result.items + [e.value.0];
      reader.Skip(e.value.1);
      i := i + 1;
    }
    ok := true;
  }

  /** `GetListWithCount`: reads a count, then exactly that many elements in order. A
      supplied list is cleared and refilled and is itself the result; otherwise a
      fresh list is returned. A negative count throws (after clearing a supplied list). */
  method GetListWithCount<T>(reader: Reader, list: ManagedList?<T>, c: ElementCodec<T>) returns (r: Result<ManagedList<T>>)
    requires reader.Valid()
    modifies reader, list
    ensures reader.Valid() && reader.source == old(reader.source)
    ensures DecodeInt32(old(reader.Remaining())).None? ==>
              r == Failure(ReadPastEnd) && reader.position == old(reader.position) &&
              (list != null ==> list.items == old(list.items))
    ensures var d := DecodeInt32(old(reader.Remaining()));
            d.Some? && d.value < 0 ==>
              r == Failure(NegativeCount) && (list != null ==> list.items == [])
    ensures var d := DecodeInt32(old(reader.Remaining()));
            d.Some? && d.value >= 0 ==>
              var decoded := DecodeElements(c, old(reader.Remaining())[4..], d.value);
              (decoded.None? ==> r.Failure?) &&
              (decoded.Some? ==>
                 r.Success? && r.value.items == decoded.value.0 &&
                 reader.position == old(reader.position) + 4 + decoded.value.1 &&
                 (list != null ==> r.value == list) &&
                 (list == null ==> fresh(r.value)))
  {
    ghost var before := reader.Remaining();
    var count := reader.GetInt();
    if count.Failure? {
      return Failure(count.error);
    }
    var n := count.value;
    var result: ManagedList<T>;
    if list == null {
      if n < 0 {
        return Failure(NegativeCount);
      }
      result := new ManagedList([]);
    } else {
      list.items := [];
      if n < 0 {
        return Failure(NegativeCount);
      }
      result := list;
    }
    assert reader.Remaining() == before[4..];
    var ok := ReadElements(reader, result, n, c);
    if !ok {
      return Failure(ReadPastEnd);
    }
    r := Success(result);
  }

  /** If the first `i` elements cannot be read, neither can the first `n >= i`. */
  lemma {:induction false} DecodeElementsPrefixFails<T>(c: ElementCodec<T>, b: seq<byte>, i: nat, n: nat)
    requires i <= n && DecodeElements(c, b, i).None?
    ensures DecodeElements(c, b, n).None?
    decreases i
  {
    if i > 0 {
      match c.get(b)
      case None =>
      case Some((x, k)) =>
        if k <= |b| {
          DecodeElementsPrefixFails(c, b[k..], i - 1, n - 1);
        }
    }
  }
}
