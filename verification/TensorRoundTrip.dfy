/** Reading back what was serialised: the same dictionary for every iteration order, with trailing
    bytes ignored, every strict prefix rejected and all data on 256-byte boundaries. */
module TensorRoundTrip {
  import opened Options
  import opened TensorCodec

  /** `s` stands at position `pos` of `b`. */
  ghost predicate At(b: Bytes, pos: nat, s: Bytes) {
    pos + |s| <= |b| && b[pos..pos + |s|] == s
  }

  lemma AtSplit(b: Bytes, pos: nat, s: Bytes, t: Bytes)
    requires At(b, pos, s + t)
    ensures At(b, pos, s) && At(b, pos + |s|, t)
  {
    var st := s + t;
    assert s == st[..|s|] && t == st[|s|..];
  }

  lemma ReadBack(b: Bytes, pos: nat, value: nat, n: nat)
    requires At(b, pos, ToBytes(value, n)) && value < Pow256(n)
    ensures ReadValue(b, pos, n) == Ok((value, pos + n))
  {
    ValueRoundTrip(value, n);
  }

  lemma WordBack(b: Bytes, pos: nat, value: nat, word: Bytes)
    requires word == ToBytes(value, 4) && At(b, pos, word) && value < U32
    ensures ReadValue(b, pos, 4) == Ok((value, pos + 4))
  {
    WordSizes();
    ReadBack(b, pos, value, 4);
  }

  lemma LongBack(b: Bytes, pos: nat, value: nat, word: Bytes)
    requires word == ToBytes(value, 8) && At(b, pos, word) && value < U64
    ensures ReadValue(b, pos, 8) == Ok((value, pos + 8))
  {
    WordSizes();
    ReadBack(b, pos, value, 8);
  }

  lemma {:induction false} ShapeBack(b: Bytes, pos: nat, shape: seq<nat>)
    requires At(b, pos, EncodeShape(shape))
    requires forall i :: 0 <= i < |shape| ==> shape[i] < U64
    ensures ReadShape(b, pos, |shape|) == Ok((shape, pos + 8 * |shape|))
  {
    if shape == [] {
    } else {
      var n := |shape| - 1;
      AtSplit(b, pos, EncodeShape(shape[..n]), ToBytes(shape[n], 8));
      ShapeBack(b, pos, shape[..n]);
      LongBack(b, pos + 8 * n, shape[n], ToBytes(shape[n], 8));
      assert shape == shape[..n] + [shape[n]];
    }
  }

  lemma FourParts(b: Bytes, pos: nat, w: Bytes, x: Bytes, y: Bytes, z: Bytes)
    requires At(b, pos, w + x + y + z)
    ensures At(b, pos, w) && At(b, pos + |w|, x) && At(b, pos + |w| + |x|, y) && At(b, pos + |w| + |x| + |y|, z)
  {
    AtSplit(b, pos, w + x + y, z);
    AtSplit(b, pos, w + x, y);
    AtSplit(b, pos, w, x);
  }

  /** The four fields read one after the other. */
  lemma FieldsFrom(b: Bytes, pos: nat, t: Tensor, after: nat)
    requires t.Valid() && pos <= |b| && ReadValue(b, pos, 4) == Ok((t.dtype.Code(), pos + 4))
    requires ReadValue(b, pos + 4, 8) == Ok((|t.shape|, pos + 12))
    requires ReadShape(b, pos + 12, |t.shape|) == Ok((t.shape, after))
    requires ReadValue(b, after, 8) == Ok((t.dataSize, after + 8))
    ensures ReadFields(b, pos) == Ok((t.dtype, t.shape, t.dataSize, after + 8))
  {
  }

  lemma ShapeLength(shape: seq<nat>)
    ensures |EncodeShape(shape)| == 8 * |shape|
  {
  }

  lemma TensorFrom(b: Bytes, pos: nat, t: Tensor, code: Bytes, rank: Bytes, shape: Bytes, size: Bytes)
    requires t.Valid() && code == ToBytes(t.dtype.Code(), 4) && rank == ToBytes(|t.shape|, 8)
    requires shape == EncodeShape(t.shape) && size == ToBytes(t.dataSize, 8)
    requires At(b, pos, code) && At(b, pos + 4, rank) && At(b, pos + 12, shape) && At(b, pos + 12 + |shape|, size)
    ensures ReadFields(b, pos) == Ok((t.dtype, t.shape, t.dataSize, pos + 20 + |shape|))
  {
    ShapeLength(t.shape);
    WordBack(b, pos, t.dtype.Code(), code);
    LongBack(b, pos + 4, |t.shape|, rank);
    ShapeBack(b, pos + 12, t.shape);
    LongBack(b, pos + 12 + |shape|, t.dataSize, size);
    FieldsFrom(b, pos, t, pos + 12 + |shape|);
  }

  lemma TensorBack(b: Bytes, pos: nat, t: Tensor)
    requires At(b, pos, EncodeTensor(t)) && t.Valid()
    ensures |EncodeTensor(t)| == 20 + 8 * |t.shape|
    ensures ReadFields(b, pos) == Ok((t.dtype, t.shape, t.dataSize, pos + |EncodeTensor(t)|))
  {
    var code, rank := ToBytes(t.dtype.Code(), 4), ToBytes(|t.shape|, 8);
    var shape, size := EncodeShape(t.shape), ToBytes(t.dataSize, 8);
    FourParts(b, pos, code, rank, shape, size);
    TensorFrom(b, pos, t, code, rank, shape, size);
  }

  /** Where the view of a tensor whose entry ends at `end` points. */
  function ViewEndingAt(t: Tensor, end: nat): View
    requires t.dataSize <= end
  {
    View(t.dtype, t.shape, t.dataSize, if t.dataSize == 0 then None else Some(end - t.dataSize))
  }

  lemma DataBack(b: Bytes, pos: nat, data: Bytes)
    requires At(b, pos, EncodePadding(pos) + data)
    ensures ReadValue(b, pos, 4) == Ok((Padding(pos), pos + 4))
    ensures At(b, pos + 4 + Padding(pos), data)
    ensures |EncodePadding(pos)| == 4 + Padding(pos)
  {
    AtSplit(b, pos, EncodePadding(pos), data);
    AtSplit(b, pos, ToBytes(Padding(pos), 4), Zeros(Padding(pos)));
    WordBack(b, pos, Padding(pos), ToBytes(Padding(pos), 4));
  }

  lemma NameBack(b: Bytes, pos: nat, name: Bytes)
    requires At(b, pos, EncodeName(name)) && |name| < U32
    ensures ReadValue(b, pos, 4) == Ok((|name|, pos + 4))
    ensures At(b, pos + 4, name) && |EncodeName(name)| == 4 + |name|
  {
    LengthBack(b, pos, |name|, name);
  }

  lemma LengthBack(b: Bytes, pos: nat, length: nat, name: Bytes)
    requires At(b, pos, ToBytes(length, 4) + name) && length < U32
    ensures ReadValue(b, pos, 4) == Ok((length, pos + 4)) && At(b, pos + 4, name)
  {
    AtSplit(b, pos, ToBytes(length, 4), name);
    WordBack(b, pos, length, ToBytes(length, 4));
  }

  lemma AtEnd(b: Bytes, s: Bytes, t: Bytes)
    requires s + t <= b
    ensures s <= b && At(b, |s|, t)
  {
    var st := s + t;
    assert b[..|st|] == st && st[..|s|] == s && st[|s|..] == t;
  }

  ghost predicate NameAt(b: Bytes, pos: nat, name: Bytes) {
    && pos + 4 + |name| <= |b|
    && ReadValue(b, pos, 4) == Ok((|name|, pos + 4)) && At(b, pos + 4, name)
  }

  lemma NameThenTensor(b: Bytes, pos: nat, e: Entry, name: Bytes, tensor: Bytes)
    requires name == EncodeName(e.name) && tensor == EncodeTensor(e.tensor)
    requires At(b, pos, name) && At(b, pos + |name|, tensor) && e.tensor.Valid() && |e.name| < U32
    ensures NameAt(b, pos, e.name)
    ensures ReadFields(b, pos + 4 + |e.name|)
            == Ok((e.tensor.dtype, e.tensor.shape, e.tensor.dataSize, pos + |name| + |tensor|))
  {
    NameBack(b, pos, e.name);
    TensorBack(b, pos + |name|, e.tensor);
  }

  lemma PartsAt(b: Bytes, front: Bytes, x: Bytes, y: Bytes)
    requires front + (x + y) <= b
    ensures At(b, |front|, x) && At(b, |front| + |x|, y)
  {
    AtEnd(b, front, x + y);
    AtSplit(b, |front|, x, y);
  }

  lemma FieldsParts(b: Bytes, front: Bytes, e: Entry, fields: Bytes)
    requires fields == front + EncodeFields(e) && fields <= b
    ensures At(b, |front|, EncodeName(e.name)) && At(b, |front| + |EncodeName(e.name)|, EncodeTensor(e.tensor))
    ensures |fields| == |front| + |EncodeName(e.name)| + |EncodeTensor(e.tensor)|
  {
    PartsAt(b, front, EncodeName(e.name), EncodeTensor(e.tensor));
  }

  ghost predicate DataAt(b: Bytes, t: Tensor, end: nat) {
    t.dataSize > 0 ==>
      && t.data.Some? && t.dataSize <= end
      && (end - t.dataSize) % ALIGNMENT == 0 && At(b, end - t.dataSize, t.data.value)
  }

  lemma DataExtends(front: Bytes, t: Tensor, out: Bytes)
    requires WithData(front, t) == Ok(out) && t.Valid()
    ensures front <= out && |front| + t.dataSize <= |out|
  {
  }

  lemma NonEmptyBack(b: Bytes, pos: nat, t: Tensor, front: Bytes, out: Bytes)
    requires pos <= |b| && ReadFields(b, pos) == Ok((t.dtype, t.shape, t.dataSize, |front|))
    requires t.Valid() && t.dataSize > 0 && WithData(front, t) == Ok(out) && out <= b
    ensures ReadTensor(b, pos) == Ok((ViewEndingAt(t, |out|), |out|)) && DataAt(b, t, |out|)
  {
    var tail := EncodePadding(|front|) + t.data.value;
    assert out == front + tail;
    AtEnd(b, front, tail);
    DataBack(b, |front|, t.data.value);
  }

  lemma ViewBack(b: Bytes, pos: nat, t: Tensor, front: Bytes, out: Bytes)
    requires pos <= |b| && ReadFields(b, pos) == Ok((t.dtype, t.shape, t.dataSize, |front|))
    requires t.Valid() && WithData(front, t) == Ok(out) && out <= b
    ensures |front| + t.dataSize <= |out|
    ensures ReadTensor(b, pos) == Ok((ViewEndingAt(t, |out|), |out|))
    ensures DataAt(b, t, |out|)
  {
    DataExtends(front, t, out);
    if t.dataSize > 0 {
      NonEmptyBack(b, pos, t, front, out);
    }
  }

  lemma NameReads(b: Bytes, pos: nat, name: Bytes)
    requires NameAt(b, pos, name)
    ensures ReadName(b, pos) == Ok((name, pos + 4 + |name|))
  {
  }

  lemma EntryFrom(b: Bytes, pos: nat, name: Bytes, view: View, end: nat)
    requires NameAt(b, pos, name) && ReadTensor(b, pos + 4 + |name|) == Ok((view, end))
    ensures ReadEntry(b, pos) == Ok((name, view, end))
  {
    NameReads(b, pos, name);
  }

  lemma FieldsThenData(b: Bytes, pos: nat, e: Entry, fields: Bytes, out: Bytes)
    requires NameAt(b, pos, e.name) && e.tensor.Valid() && WithData(fields, e.tensor) == Ok(out) && out <= b
    requires ReadFields(b, pos + 4 + |e.name|)
             == Ok((e.tensor.dtype, e.tensor.shape, e.tensor.dataSize, |fields|))
    ensures |fields| + e.tensor.dataSize <= |out| && DataAt(b, e.tensor, |out|)
    ensures ReadEntry(b, pos) == Ok((e.name, ViewEndingAt(e.tensor, |out|), |out|))
  {
    ViewBack(b, pos + 4 + |e.name|, e.tensor, fields, out);
    EntryFrom(b, pos, e.name, ViewEndingAt(e.tensor, |out|), |out|);
  }

  lemma EntryOver(b: Bytes, pos: nat, e: Entry, fields: Bytes, out: Bytes)
    requires At(b, pos, EncodeName(e.name)) && At(b, pos + |EncodeName(e.name)|, EncodeTensor(e.tensor))
    requires |fields| == pos + |EncodeName(e.name)| + |EncodeTensor(e.tensor)|
    requires WithData(fields, e.tensor) == Ok(out) && out <= b && e.tensor.Valid() && |e.name| < U32
    ensures |fields| + e.tensor.dataSize <= |out| && DataAt(b, e.tensor, |out|)
    ensures ReadEntry(b, pos) == Ok((e.name, ViewEndingAt(e.tensor, |out|), |out|))
  {
    NameThenTensor(b, pos, e, EncodeName(e.name), EncodeTensor(e.tensor));
    FieldsThenData(b, pos, e, fields, out);
  }

  lemma EntryBack(b: Bytes, front: Bytes, e: Entry, out: Bytes)
    requires WithEntry(front, e) == Ok(out) && out <= b
    requires e.tensor.Valid() && |e.name| < U32
    ensures |front| + e.tensor.dataSize <= |out| && DataAt(b, e.tensor, |out|)
    ensures ReadEntry(b, |front|) == Ok((e.name, ViewEndingAt(e.tensor, |out|), |out|))
  {
    var fields := front + EncodeFields(e);
    DataExtends(fields, e.tensor, out);
    FieldsParts(b, front, e, fields);
    EntryOver(b, |front|, e, fields, out);
  }

  // ---- Whole dictionaries ----------------------------------------------------------------------

  /** The view has the tensor's type and shape, and its aligned range holds the tensor's data. */
  ghost predicate Shows(b: Bytes, view: View, t: Tensor) {
    && view.dtype == t.dtype && view.shape == t.shape && view.size == t.dataSize
    && (view.offset.Some? <==> t.dataSize > 0)
    && (t.dataSize > 0 ==>
          t.data.Some? && view.offset.value % ALIGNMENT == 0 && At(b, view.offset.value, t.data.value))
  }

  ghost predicate Named(entries: seq<Entry>, name: Bytes) {
    exists i :: 0 <= i < |entries| && entries[i].name == name
  }

  ghost predicate EndsBy(view: View, end: nat) {
    view.offset.Some? ==> view.offset.value + view.size <= end
  }

  ghost predicate Before(v: View, w: View) {
    v.offset.Some? && w.offset.Some? ==> v.offset.value + v.size <= w.offset.value
  }

  /** The views are exactly those of the entries, lie before `end` and do not overlap. */
  ghost predicate Faithful(b: Bytes, views: Views, entries: seq<Entry>, end: nat) {
    && (forall name :: name in views <==> Named(entries, name))
    && (forall i :: 0 <= i < |entries| ==> Named(entries, entries[i].name))
    && (forall i :: 0 <= i < |entries| ==>
          && Shows(b, views[entries[i].name], entries[i].tensor)
          && EndsBy(views[entries[i].name], end))
    && (forall i, j :: 0 <= i < j < |entries| ==>
          Before(views[entries[i].name], views[entries[j].name]))
  }

  lemma NamedMore(entries: seq<Entry>, e: Entry, name: Bytes)
    ensures Named(entries + [e], name) <==> Named(entries, name) || name == e.name
  {
    var more := entries + [e];
    if Named(entries, name) {
      var i :| 0 <= i < |entries| && entries[i].name == name;
      assert more[i].name == name;
    }
    if Named(more, name) && name != e.name {
      var i :| 0 <= i < |more| && more[i].name == name;
      assert entries[i].name == name;
    }
    assert more[|entries|].name == e.name;
  }

  lemma NewView(b: Bytes, e: Entry, from: nat, end: nat)
    requires from + e.tensor.dataSize <= end && DataAt(b, e.tensor, end) && e.tensor.Valid()
    ensures var view := ViewEndingAt(e.tensor, end);
            && Shows(b, view, e.tensor) && EndsBy(view, end)
            && forall v: View :: EndsBy(v, from) ==> Before(v, view) && EndsBy(v, end)
  {
  }

  /** The names and views of one more entry. */
  lemma OneMoreEntry(b: Bytes, views: Views, entries: seq<Entry>, e: Entry, from: nat, end: nat)
    requires Faithful(b, views, entries, from) && e.name !in views
    requires from + e.tensor.dataSize <= end && DataAt(b, e.tensor, end) && e.tensor.Valid()
    ensures Faithful(b, WithView(views, e.name, ViewEndingAt(e.tensor, end)), entries + [e], end)
  {
    var more := entries + [e];
    var view := ViewEndingAt(e.tensor, end);
    var after := WithView(views, e.name, view);
    NewView(b, e, from, end);
    forall name ensures name in after <==> Named(more, name) {
      NamedMore(entries, e, name);
    }
    OldViews(views, entries, e, view);
    MoreViews(b, after, entries, more, e, from, end);
  }

  lemma OldViews(views: Views, entries: seq<Entry>, e: Entry, view: View)
    requires e.name !in views && forall i :: 0 <= i < |entries| ==> entries[i].name in views
    ensures var after := WithView(views, e.name, view);
            && e.name in after && after[e.name] == view
            && forall i :: 0 <= i < |entries| ==>
                 entries[i].name in after && after[entries[i].name] == views[entries[i].name]
  {
  }

  lemma MoreViews(b: Bytes, after: Views, entries: seq<Entry>, more: seq<Entry>, e: Entry, from: nat, end: nat)
    requires more == entries + [e] && (forall name :: name in after <==> Named(more, name))
    requires e.name in after && e.tensor.dataSize <= end && after[e.name] == ViewEndingAt(e.tensor, end)
    requires Shows(b, after[e.name], e.tensor) && EndsBy(after[e.name], end)
    requires forall v: View :: EndsBy(v, from) ==> Before(v, after[e.name]) && EndsBy(v, end)
    requires forall i :: 0 <= i < |entries| ==>
               && entries[i].name in after
               && Shows(b, after[entries[i].name], entries[i].tensor) && EndsBy(after[entries[i].name], from)
    requires forall i, j :: 0 <= i < j < |entries| ==> Before(after[entries[i].name], after[entries[j].name])
    ensures Faithful(b, after, more, end)
  {
    forall i | 0 <= i < |more| ensures Named(more, more[i].name) {}
    forall i | 0 <= i < |more|
      ensures Shows(b, after[more[i].name], more[i].tensor) && EndsBy(after[more[i].name], end)
    {
      if i < |entries| { assert more[i] == entries[i]; }
    }
    forall i, j | 0 <= i < j < |more| ensures Before(after[more[i].name], after[more[j].name]) {
      assert more[i] == entries[i];
      if j < |entries| { assert more[j] == entries[j]; }
    }
  }

  lemma EntryExtends(front: Bytes, e: Entry, s: Bytes)
    requires WithEntry(front, e) == Ok(s) && e.tensor.Valid()
    ensures front <= s
  {
    DataExtends(front + EncodeFields(e), e.tensor, s);
  }

  lemma {:induction false} ReadOneMore(read: EntryReader, from: Views, start: nat, count: nat,
                                       views: Views, pos: nat, name: Bytes, view: View, end: nat)
    requires ReadEntries(read, from, start, count) == Ok((views, pos))
    requires read(pos) == Ok((name, view, end))
    ensures ReadEntries(read, from, start, count + 1) == Ok((WithView(views, name, view), end))
    decreases count
  {
    if count == 0 {
    } else {
      var first := read(start).value;
      ReadOneMore(read, WithView(from, first.0, first.1), first.2, count - 1, views, pos, name, view, end);
    }
  }

  lemma EntryRead(b: Bytes, read: EntryReader, front: Bytes, e: Entry, s: Bytes)
    requires Reads(read, b) && WithEntry(front, e) == Ok(s) && s <= b && |front| <= |b|
    requires e.tensor.Valid() && |e.name| < U32
    ensures |front| + e.tensor.dataSize <= |s| && DataAt(b, e.tensor, |s|)
    ensures read(|front|) == Ok((e.name, ViewEndingAt(e.tensor, |s|), |s|))
  {
    EntryBack(b, front, e, s);
  }

  lemma StepBack(b: Bytes, read: EntryReader, early: Views, front: seq<Entry>, e: Entry, from: nat, end: nat)
    returns (views: Views)
    requires Faithful(b, early, front, from) && !Named(front, e.name) && e.tensor.Valid()
    requires ReadEntries(read, map[], 16, |front|) == Ok((early, from))
    requires from + e.tensor.dataSize <= end && DataAt(b, e.tensor, end)
    requires read(from) == Ok((e.name, ViewEndingAt(e.tensor, end), end))
    ensures Faithful(b, views, front + [e], end)
    ensures ReadEntries(read, map[], 16, |front| + 1) == Ok((views, end))
  {
    var view := ViewEndingAt(e.tensor, end);
    OneMoreEntry(b, early, front, e, from, end);
    ReadOneMore(read, map[], 16, |front|, early, from, e.name, view, end);
    views := WithView(early, e.name, view);
  }

  lemma LastBack(b: Bytes, read: EntryReader, early: Views, rest: seq<Entry>, e: Entry, entries: seq<Entry>,
                 front: Bytes, s: Bytes)
    returns (views: Views)
    requires Reads(read, b) && entries == rest + [e] && !Named(rest, e.name) && e.tensor.Valid() && |e.name| < U32
    requires Faithful(b, early, rest, |front|) && ReadEntries(read, map[], 16, |rest|) == Ok((early, |front|))
    requires WithEntry(front, e) == Ok(s) && front <= s <= b
    ensures Faithful(b, views, entries, |s|)
    ensures ReadEntries(read, map[], 16, |entries|) == Ok((views, |s|))
  {
    EntryRead(b, read, front, e, s);
    views := StepBack(b, read, early, rest, e, |front|, |s|);
  }

  lemma EncodeLast(entries: seq<Entry>, count: nat, s: Bytes) returns (front: Bytes)
    requires entries != [] && Encode(entries, count) == Ok(s) && entries[|entries| - 1].tensor.Valid()
    ensures Encode(entries[..|entries| - 1], count) == Ok(front)
    ensures WithEntry(front, entries[|entries| - 1]) == Ok(s) && front <= s
  {
    front := Encode(entries[..|entries| - 1], count).value;
    EntryExtends(front, entries[|entries| - 1], s);
  }

  lemma NameIsNew(entries: seq<Entry>)
    requires entries != [] && WellFormed(entries)
    ensures WellFormed(entries[..|entries| - 1])
    ensures !Named(entries[..|entries| - 1], entries[|entries| - 1].name)
  {
  }

  /** The last entry and the encoding of the others. */
  lemma Peel(entries: seq<Entry>, count: nat, s: Bytes) returns (rest: seq<Entry>, e: Entry, front: Bytes)
    requires entries != [] && WellFormed(entries) && Encode(entries, count) == Ok(s)
    ensures entries == rest + [e] && WellFormed(rest)
    ensures !Named(rest, e.name) && e.tensor.Valid() && |e.name| < U32
    ensures Encode(rest, count) == Ok(front) && WithEntry(front, e) == Ok(s) && front <= s
  {
    rest, e := entries[..|entries| - 1], entries[|entries| - 1];
    front := EncodeLast(entries, count, s);
    NameIsNew(entries);
  }

  lemma {:induction false} EntriesBack(b: Bytes, read: EntryReader, entries: seq<Entry>, count: nat, s: Bytes)
    returns (views: Views)
    requires Reads(read, b) && WellFormed(entries)
    requires Encode(entries, count) == Ok(s) && s <= b
    ensures Faithful(b, views, entries, |s|)
    ensures ReadEntries(read, map[], 16, |entries|) == Ok((views, |s|))
    decreases |entries|
  {
    if entries == [] {
      views := map[];
    } else {
      var rest, e, front := Peel(entries, count, s);
      var early := EntriesBack(b, read, rest, count, front);
      views := LastBack(b, read, early, rest, e, entries, front, s);
    }
  }

  lemma HeaderBack(b: Bytes, count: nat)
    requires Header(count) <= b && count < U32
    ensures 16 <= |b| && Parse(b) == ReadEntries(ReaderOf(b), map[], 16, count)
  {
    AtEnd(b, [], Header(count));
    AtSplit(b, 0, MAGIC + ToBytes(VERSION, 4), ToBytes(count, 4));
    AtSplit(b, 0, MAGIC, ToBytes(VERSION, 4));
    WordSizes();
    ReadBack(b, 8, VERSION, 4);
    ReadBack(b, 12, count, 4);
  }

  lemma {:induction false} EncodeHeader(entries: seq<Entry>, count: nat, s: Bytes)
    requires WellFormed(entries) && Encode(entries, count) == Ok(s)
    ensures Header(count) <= s
    decreases |entries|
  {
    if entries == [] {
    } else {
      var front := EncodeLast(entries, count, s);
      EncodeHeader(entries[..|entries| - 1], count, front);
    }
  }

  /** Whatever follows a serialised dictionary, parsing consumes exactly its bytes and yields exactly
      its views. */
  lemma ParseBack(entries: seq<Entry>, s: Bytes, b: Bytes)
    requires WellFormed(entries) && Encode(entries, |entries|) == Ok(s) && s <= b
    ensures Parse(b).Ok? && Parse(b).value.1 == |s| && Faithful(b, Parse(b).value.0, entries, |s|)
  {
    EncodeHeader(entries, |entries|, s);
    HeaderBack(b, |entries|);
    var _ := EntriesBack(b, ReaderOf(b), entries, |entries|, s);
  }

  // ---- The dictionary as a map -----------------------------------------------------------------

  type Content = (DType, seq<nat>, Bytes)

  function Read(b: Bytes, v: View): Content {
    (v.dtype, v.shape,
     if v.offset.Some? && v.offset.value + v.size <= |b|
     then b[v.offset.value..v.offset.value + v.size] else [])
  }

  function ContentOf(t: Tensor): Content {
    (t.dtype, t.shape, if t.dataSize > 0 && t.data.Some? then t.data.value else [])
  }

  /** `entries` is one iteration order of `tensors`. */
  ghost predicate Lists(entries: seq<Entry>, tensors: map<Bytes, Tensor>) {
    && (forall i, j :: 0 <= i < j < |entries| ==> entries[i].name != entries[j].name)
    && (forall name :: name in tensors <==> Named(entries, name))
    && (forall i :: 0 <= i < |entries| ==> Named(entries, entries[i].name))
    && (forall i :: 0 <= i < |entries| ==> tensors[entries[i].name] == entries[i].tensor)
  }

  ghost predicate Storable(tensors: map<Bytes, Tensor>) {
    && |tensors| < U32
    && (forall name :: name in tensors ==>
          |name| < U32 && tensors[name].Valid() && (tensors[name].dataSize > 0 ==> tensors[name].data.Some?))
  }

  lemma NamedFront(entries: seq<Entry>, name: Bytes)
    requires entries != []
    requires forall i, j :: 0 <= i < j < |entries| ==> entries[i].name != entries[j].name
    ensures var n := |entries| - 1;
            Named(entries[..n], name) <==> Named(entries, name) && name != entries[n].name
  {
    var front := entries[..|entries| - 1];
    if Named(front, name) {
      var i :| 0 <= i < |front| && front[i].name == name;
      assert entries[i].name == name;
    }
    if Named(entries, name) && name != entries[|entries| - 1].name {
      var i :| 0 <= i < |entries| && entries[i].name == name;
      assert front[i].name == name;
    }
  }

  lemma FrontLists(entries: seq<Entry>, tensors: map<Bytes, Tensor>)
    requires entries != [] && Lists(entries, tensors)
    ensures entries[|entries| - 1].name in tensors
    ensures Lists(entries[..|entries| - 1], tensors - {entries[|entries| - 1].name})
  {
    var n := |entries| - 1;
    var front, rest := entries[..n], tensors - {entries[n].name};
    assert Named(entries, entries[n].name);
    forall name ensures name in rest <==> Named(front, name) {
      NamedFront(entries, name);
    }
    forall i | 0 <= i < n ensures Named(front, front[i].name) {}
  }

  lemma {:induction false} ListingLength(entries: seq<Entry>, tensors: map<Bytes, Tensor>)
    requires Lists(entries, tensors)
    ensures |entries| == |tensors|
    decreases |entries|
  {
    if entries == [] {
      forall name ensures name !in tensors {
        assert !Named(entries, name);
      }
      assert tensors == map[];
    } else {
      var last := entries[|entries| - 1].name;
      FrontLists(entries, tensors);
      ListingLength(entries[..|entries| - 1], tensors - {last});
      assert tensors == (tensors - {last})[last := tensors[last]];
    }
  }

  /** Serialising any storable dictionary in any iteration order succeeds, and parsing the result,
      followed by any bytes at all, consumes it exactly and gives the dictionary back. */
  lemma RoundTrip(tensors: map<Bytes, Tensor>, entries: seq<Entry>, tail: Bytes)
    requires Storable(tensors) && Lists(entries, tensors)
    ensures var s := Encode(entries, |entries|);
            && s.Ok?
            && var b := s.value + tail;
               && Parse(b).Ok? && Parse(b).value.1 == |s.value|
               && (map name | name in Parse(b).value.0 :: Read(b, Parse(b).value.0[name]))
                  == (map name | name in tensors :: ContentOf(tensors[name]))
  {
    ListingLength(entries, tensors);
    forall i | 0 <= i < |entries|
      ensures entries[i].name in tensors && tensors[entries[i].name] == entries[i].tensor
    {
      assert Named(entries, entries[i].name);
    }
    EncodeSucceeds(entries, |entries|);
    var s := Encode(entries, |entries|).value;
    var b := s + tail;
    ParseBack(entries, s, b);
    SameContents(b, Parse(b).value.0, entries, tensors, |s|);
  }

  lemma SameContent(b: Bytes, view: View, t: Tensor)
    requires Shows(b, view, t) && t.Valid()
    ensures Read(b, view) == ContentOf(t)
  {
  }

  lemma SameContents(b: Bytes, views: Views, entries: seq<Entry>, tensors: map<Bytes, Tensor>, end: nat)
    requires Faithful(b, views, entries, end) && Lists(entries, tensors)
    requires forall i :: 0 <= i < |entries| ==> entries[i].tensor.Valid()
    ensures (map name | name in views :: Read(b, views[name]))
            == (map name | name in tensors :: ContentOf(tensors[name]))
  {
    assert views.Keys == tensors.Keys by {
      forall name ensures name in views <==> name in tensors {}
    }
    forall name | name in views ensures Read(b, views[name]) == ContentOf(tensors[name]) {
      ContentAt(b, views, entries, tensors, end, name);
    }
  }

  lemma ContentAt(b: Bytes, views: Views, entries: seq<Entry>, tensors: map<Bytes, Tensor>, end: nat, name: Bytes)
    requires Faithful(b, views, entries, end) && Lists(entries, tensors) && name in views && name in tensors
    requires forall i :: 0 <= i < |entries| ==> entries[i].tensor.Valid()
    ensures Read(b, views[name]) == ContentOf(tensors[name])
  {
    assert Named(entries, name);
    var i :| 0 <= i < |entries| && entries[i].name == name;
    SameContent(b, views[name], entries[i].tensor);
  }

  // ---- Truncated input -------------------------------------------------------------------------

  lemma ValueStable(b: Bytes, t: Bytes, pos: nat, n: nat)
    requires pos <= |b| && ReadValue(b, pos, n).Ok?
    ensures ReadValue(b + t, pos, n) == ReadValue(b, pos, n)
  {
    assert (b + t)[pos..pos + n] == b[pos..pos + n];
  }

  lemma {:induction false} ShapeStable(b: Bytes, t: Bytes, pos: nat, ndim: nat)
    requires pos <= |b| && ReadShape(b, pos, ndim).Ok?
    ensures ReadShape(b + t, pos, ndim) == ReadShape(b, pos, ndim)
  {
    if ndim == 0 {
    } else {
      ShapeStable(b, t, pos, ndim - 1);
      ValueStable(b, t, ReadShape(b, pos, ndim - 1).value.1, 8);
    }
  }

  lemma FieldsStable(b: Bytes, t: Bytes, pos: nat)
    requires pos <= |b| && ReadFields(b, pos).Ok?
    ensures ReadFields(b + t, pos) == ReadFields(b, pos)
  {
    ValueStable(b, t, pos, 4);
    ValueStable(b, t, pos + 4, 8);
    var ndim := ReadValue(b, pos + 4, 8).value.0;
    ShapeStable(b, t, pos + 12, ndim);
    ValueStable(b, t, ReadShape(b, pos + 12, ndim).value.1, 8);
  }

  lemma TensorStable(b: Bytes, t: Bytes, pos: nat)
    requires pos <= |b| && ReadTensor(b, pos).Ok?
    ensures ReadTensor(b + t, pos) == ReadTensor(b, pos)
  {
    FieldsStable(b, t, pos);
    var fields := ReadFields(b, pos).value;
    if fields.2 > 0 {
      ValueStable(b, t, fields.3, 4);
    }
  }

  lemma EntryParts(b: Bytes, pos: nat) returns (name: Bytes, view: View, end: nat)
    requires pos <= |b| && ReadEntry(b, pos).Ok?
    ensures NameAt(b, pos, name) && ReadTensor(b, pos + 4 + |name|) == Ok((view, end))
    ensures ReadEntry(b, pos) == Ok((name, view, end))
  {
    var entry := ReadEntry(b, pos).value;
    name, view, end := entry.0, entry.1, entry.2;
  }

  lemma NameStable(b: Bytes, t: Bytes, pos: nat, name: Bytes)
    requires NameAt(b, pos, name)
    ensures NameAt(b + t, pos, name)
  {
    ValueStable(b, t, pos, 4);
    assert (b + t)[pos + 4..pos + 4 + |name|] == b[pos + 4..pos + 4 + |name|];
  }

  lemma PartsStable(b: Bytes, t: Bytes, pos: nat, name: Bytes, view: View, end: nat)
    requires NameAt(b, pos, name) && ReadTensor(b, pos + 4 + |name|) == Ok((view, end))
    ensures ReadEntry(b + t, pos) == Ok((name, view, end))
  {
    NameStable(b, t, pos, name);
    TensorStable(b, t, pos + 4 + |name|);
    EntryFrom(b + t, pos, name, view, end);
  }

  lemma EntryStable(b: Bytes, t: Bytes, pos: nat)
    requires pos <= |b| && ReadEntry(b, pos).Ok?
    ensures ReadEntry(b + t, pos) == ReadEntry(b, pos)
  {
    var name, view, end := EntryParts(b, pos);
    PartsStable(b, t, pos, name, view, end);
  }

  lemma {:induction false} EntriesStable(f: EntryReader, g: EntryReader, views: Views, pos: nat, count: nat, n: nat)
    requires forall p :: f(p).Ok? ==> g(p) == f(p) && f(p).value.2 <= n
    requires ReadEntries(f, views, pos, count).Ok? && pos <= n
    ensures ReadEntries(g, views, pos, count) == ReadEntries(f, views, pos, count)
    ensures ReadEntries(f, views, pos, count).value.1 <= n
    decreases count
  {
    if count == 0 {
    } else {
      var entry := f(pos).value;
      EntriesStable(f, g, WithView(views, entry.0, entry.1), entry.2, count - 1, n);
    }
  }

  lemma ReaderStable(b: Bytes, t: Bytes, p: nat)
    ensures ReaderOf(b)(p).Ok? ==>
              ReaderOf(b + t)(p) == ReaderOf(b)(p) && ReaderOf(b)(p).value.2 <= |b|
  {
    if p <= |b| && ReadEntry(b, p).Ok? {
      EntryStable(b, t, p);
    }
  }

  /** Bytes after a dictionary that parses never change what is parsed. */
  lemma ParseStable(b: Bytes, t: Bytes)
    requires Parse(b).Ok?
    ensures Parse(b + t) == Parse(b) && Parse(b).value.1 <= |b|
  {
    assert (b + t)[..8] == b[..8];
    ValueStable(b, t, 8, 4);
    ValueStable(b, t, 12, 4);
    var f, g := ReaderOf(b), ReaderOf(b + t);
    forall p: nat ensures f(p).Ok? ==> g(p) == f(p) && f(p).value.2 <= |b| {
      ReaderStable(b, t, p);
    }
    EntriesStable(f, g, map[], 16, ReadValue(b, 12, 4).value.0, |b|);
  }

  lemma PrefixParse(s: Bytes, k: nat)
    requires k <= |s|
    ensures Parse(s[..k]).Ok? ==> Parse(s).Ok? && Parse(s).value.1 <= k
  {
    if Parse(s[..k]).Ok? {
      ParseStable(s[..k], s[k..]);
      assert s[..k] + s[k..] == s;
    }
  }

  /** Every strict prefix of a serialised dictionary is rejected. */
  lemma PrefixRejected(entries: seq<Entry>, s: Bytes, k: nat)
    requires WellFormed(entries) && Encode(entries, |entries|) == Ok(s) && k < |s|
    ensures Parse(s[..k]).Err?
  {
    ParseBack(entries, s, s);
    PrefixParse(s, k);
  }
}
