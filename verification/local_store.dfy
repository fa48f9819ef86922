/** The durable sample buffer: a JSON-lines file holding one encoded
    `BatchItem` per line, oldest first.  The file is modelled as its whole
    content, a `string`; every operation runs under the store's serial queue
    and is therefore one atomic transition from content to content. */
module LocalStore {
  import opened Common
  import opened Text
  import opened Models

  /** The JSON coder, kept abstract: `encode` is the JSONEncoder output for
      an item, `decode` the JSONDecoder, which may reject a line. */
  datatype Codec = Codec(encode: BatchItem -> string, decode: string -> Option<BatchItem>)

  /** A stored record: a non-empty line without a line break. */
  predicate Line(s: string) {
    s != [] && '\n' !in s
  }

  /** The encoder never emits an empty text or a raw line break. */
  ghost predicate FramedCodec(codec: Codec) {
    forall x :: Line(codec.encode(x))
  }

  /** Decoding an encoded item gives the item back.  The real encoder writes
      dates with whole-second precision, so this holds only of items whose
      times are whole seconds, which all model times are. */
  ghost predicate RoundTrips(codec: Codec) {
    forall x :: codec.decode(codec.encode(x)) == Some(x)
  }

  /** The framing invariant: the file is empty or ends with a line break. */
  predicate Framed(content: string) {
    content == [] || content[|content| - 1] == '\n'
  }

  /** The file as the store reads it: split on line breaks, dropping empty
      pieces, so blank lines are invisible. */
  function Lines(content: string): (r: seq<string>)
    ensures forall i :: 0 <= i < |r| ==> Line(r[i])
    decreases |content|
  {
    if content == [] then []
    else if content[0] == '\n' then Lines(content[1..])
    else
      var n := IndexOf(content, '\n');
      [content[..n]] + Lines(content[n..])
  }

  /** The text of `ls` as consecutive terminated lines. */
  function Render(ls: seq<string>): string {
    if ls == [] then "" else ls[0] + "\n" + Render(ls[1..])
  }

  function Encoded(codec: Codec, items: seq<BatchItem>): seq<string> {
    Map(codec.encode, items)
  }

  /** Decodes each line and keeps the items that decode (Swift `try?` inside
      the drain loop). */
  function DecodeAll(codec: Codec, ls: seq<string>): (r: seq<BatchItem>)
    ensures |r| <= |ls|
  {
    if ls == [] then []
    else match codec.decode(ls[0])
      case Some(x) => [x] + DecodeAll(codec, ls[1..])
      case None => DecodeAll(codec, ls[1..])
  }

  /** Number of records that a drain with this limit takes from the head. */
  function HeadCount(limit: int, k: nat): (m: nat)
    ensures m <= k
    ensures limit <= 0 ==> m == 0
    ensures limit >= 0 ==> m == Min(limit, k)
  {
    if limit <= 0 then 0 else Min(limit, k)
  }

  // ---------------------------------------------------------------------
  // Facts about the line structure of the file.

  lemma {:induction false} IndexOfPrefix(a: string, b: string, c: char)
    requires IndexOf(a, c) < |a|
    ensures IndexOf(a + b, c) == IndexOf(a, c)
  {
    if a[0] != c {
      assert (a + b)[1..] == a[1..] + b;
      IndexOfPrefix(a[1..], b, c);
    }
  }

  /** Reading a framed prefix and the rest separately gives the same records
      as reading them together. */
  lemma {:induction false} LinesConcat(a: string, b: string)
    requires Framed(a)
    ensures Lines(a + b) == Lines(a) + Lines(b)
    decreases |a|
  {
    if a == [] {
      assert a + b == b;
    } else if a[0] == '\n' {
      assert (a + b)[1..] == a[1..] + b;
      LinesConcat(a[1..], b);
    } else {
      var n := IndexOf(a, '\n');
      assert a[|a| - 1] == '\n';
      assert n < |a| by { assert a == a[..|a|]; }
      IndexOfPrefix(a, b, '\n');
      assert (a + b)[..n] == a[..n];
      assert (a + b)[n..] == a[n..] + b;
      LinesConcat(a[n..], b);
    }
  }

  /** One terminated record reads back as exactly that record. */
  lemma LinesOfRecord(x: string)
    requires Line(x)
    ensures Lines(x + "\n") == [x]
  {
    var s := x + "\n";
    IndexOfAfter(x, '\n', "\n");
    assert s[..|x|] == x;
    assert s[|x|..] == "\n";
    assert Lines(s[|x|..]) == Lines(""[..]);
  }

  lemma {:induction false} RenderConcat(a: seq<string>, b: seq<string>)
    ensures Render(a + b) == Render(a) + Render(b)
  {
    if a != [] {
      assert (a + b)[1..] == a[1..] + b;
      RenderConcat(a[1..], b);
    } else {
      assert a + b == b;
    }
  }

  lemma {:induction false} RenderFramed(ls: seq<string>)
    ensures Framed(Render(ls))
  {
    if ls != [] {
      RenderFramed(ls[1..]);
    }
  }

  /** Rendering records and reading them back gives the same records. */
  lemma {:induction false} LinesOfRender(ls: seq<string>)
    requires forall i :: 0 <= i < |ls| ==> Line(ls[i])
    ensures Lines(Render(ls)) == ls
  {
    if ls != [] {
      var head := ls[0] + "\n";
      assert Render(ls) == head + Render(ls[1..]);
      LinesConcat(head, Render(ls[1..]));
      LinesOfRecord(ls[0]);
      LinesOfRender(ls[1..]);
    }
  }

  lemma {:induction false} JoinTerminated(ls: seq<string>)
    requires ls != []
    ensures Join(ls, "\n") + "\n" == Render(ls)
  {
    if |ls| > 1 {
      JoinTerminated(ls[1..]);
    }
  }

  /** The split/join law the drain relies on: joining records with line
      breaks, terminating the result and splitting it again gives the
      records back. */
  lemma SplitJoinLines(ls: seq<string>)
    requires ls != []
    requires forall i :: 0 <= i < |ls| ==> Line(ls[i])
    ensures Lines(Join(ls, "\n") + "\n") == ls
  {
    JoinTerminated(ls);
    LinesOfRender(ls);
  }

  /** A file without records holds nothing but line breaks. */
  lemma {:induction false} NoLinesFramed(content: string)
    requires Lines(content) == []
    ensures Framed(content)
    decreases |content|
  {
    if content != [] {
      assert content[0] == '\n';
      NoLinesFramed(content[1..]);
    }
  }

  lemma {:induction false} JoinOfRecordsEmpty(ls: seq<string>)
    requires forall i :: 0 <= i < |ls| ==> Line(ls[i])
    ensures Join(ls, "\n") == [] <==> ls == []
  {
    if |ls| > 1 {
      assert |Join(ls, "\n")| >= |ls[0]|;
    }
  }

  /** Blank lines are ignored by every reader of the file. */
  lemma BlankLinesIgnored(a: string, b: string)
    requires Framed(a)
    ensures Lines(a + "\n" + b) == Lines(a + b)
  {
    assert a + "\n" + b == a + ("\n" + b);
    LinesConcat(a, "\n" + b);
    LinesConcat(a, b);
    assert ("\n" + b)[1..] == b;
  }

  // ---------------------------------------------------------------------
  // The operations.

  /** The file is created empty when the store is first used. */
  const Created: string := ""

  /** `appendLine`: seek to the end, write the data (if any), then a line
      break. */
  function AppendLine(content: string, data: string): (r: string)
    ensures Framed(r)
    ensures |r| == |content| + |data| + 1
  {
    content + data + "\n"
  }

  /** A record written after a framed file becomes the last record. */
  lemma AppendLineAddsRecord(content: string, data: string)
    requires Framed(content) && Line(data)
    ensures Lines(AppendLine(content, data)) == Lines(content) + [data]
  {
    assert AppendLine(content, data) == content + (data + "\n");
    LinesConcat(content, data + "\n");
    LinesOfRecord(data);
  }

  /** A trailing line break adds no record. */
  lemma {:induction false} LinesDropTerminator(a: string)
    ensures Lines(a + "\n") == Lines(a)
    decreases |a|
  {
    if a == [] {
      assert ("\n")[1..] == [];
    } else if a[0] == '\n' {
      assert (a + "\n")[1..] == a[1..] + "\n";
      LinesDropTerminator(a[1..]);
    } else {
      var n := IndexOf(a, '\n');
      if n < |a| {
        IndexOfPrefix(a, "\n", '\n');
        assert (a + "\n")[..n] == a[..n];
        assert (a + "\n")[n..] == a[n..] + "\n";
        LinesDropTerminator(a[n..]);
      } else {
        assert a[..n] == a;
        IndexOfAfter(a, '\n', "\n");
        assert (a + "\n")[..n] == a;
        assert (a + "\n")[n..] == "\n";
        assert ("\n")[1..] == [];
      }
    }
  }

  /** One line without its line break still reads as that record. */
  lemma LinesOfUnterminated(content: string, data: string)
    requires Framed(content) && Line(data)
    ensures Lines(content + data) == Lines(content) + [data]
    ensures !Framed(content + data)
  {
    LinesConcat(content, data);
    LinesDropTerminator(data);
    LinesOfRecord(data);
    assert (content + data)[|content + data| - 1] == data[|data| - 1];
  }

  /** Where an `appendLine` that throws stops.  Encoding the item, opening
      the handle, seeking or writing the data throws before anything reaches
      the file; the line-break write throws after the data is written; the
      close throws after the whole record is written. */
  datatype LineFault = Unwritten | Unterminated | Unclosed

  /** Whether a record reaches the file, complete or not. */
  predicate Kept(fault: Option<LineFault>) {
    fault != Some(Unwritten)
  }

  /** Where a multi-item append stops: it completes, or the item at `index`
      throws with `fault`. */
  datatype AppendOutcome = Completed | FaultAt(index: nat, fault: LineFault)

  /** The content after an operation and whether the operation threw. */
  datatype StoreStep = StoreStep(content: string, threw: bool)

  /** Whether an append of `n` items throws. */
  predicate Throws(n: nat, outcome: AppendOutcome) {
    outcome.FaultAt? && outcome.index < n
  }

  /** Whether an append of `n` items leaves its last record without a line
      break. */
  predicate Unterminates(n: nat, outcome: AppendOutcome) {
    Throws(n, outcome) && outcome.fault == Unterminated
  }

  /** How many of the `n` records an append leaves in the file, the
      faulting one included when its data was written. */
  function Written(n: nat, outcome: AppendOutcome): (w: nat)
    ensures w <= n
    ensures w == n <==> !Throws(n, outcome) || (outcome.index + 1 == n && outcome.fault != Unwritten)
  {
    if !Throws(n, outcome) then n
    else if outcome.fault == Unwritten then outcome.index
    else outcome.index + 1
  }

  /** `append(_ item:)`: encode, then `appendLine`.  A fault before the data
      leaves the file as it was; a fault at the line break leaves the record
      unterminated; a fault at the close leaves the record complete; in all
      three the call throws. */
  function AppendItem(codec: Codec, content: string, item: BatchItem, fault: Option<LineFault>): (r: StoreStep)
    ensures r.threw <==> fault.Some?
    ensures Framed(content) && fault != Some(Unterminated) ==> Framed(r.content)
    ensures FramedCodec(codec) && fault == Some(Unterminated) ==> !Framed(r.content)
    ensures FramedCodec(codec) && Framed(content) ==>
      Lines(r.content) == Lines(content) + (if Kept(fault) then [codec.encode(item)] else [])
  {
    var data := codec.encode(item);
    match fault
    case None =>
      assert FramedCodec(codec) && Framed(content) ==>
          Lines(AppendLine(content, data)) == Lines(content) + [data] by {
        if FramedCodec(codec) && Framed(content) {
          AppendLineAddsRecord(content, data);
        }
      }
      StoreStep(AppendLine(content, data), false)
    case Some(Unwritten) => StoreStep(content, true)
    case Some(Unterminated) =>
      assert FramedCodec(codec) ==> !Framed(content + data) by {
        if FramedCodec(codec) {
          assert Line(data);
          assert (content + data)[|content + data| - 1] == data[|data| - 1];
        }
      }
      assert FramedCodec(codec) && Framed(content) ==> Lines(content + data) == Lines(content) + [data] by {
        if FramedCodec(codec) && Framed(content) {
          LinesOfUnterminated(content, data);
        }
      }
      StoreStep(content + data, true)
    case Some(Unclosed) =>
      assert FramedCodec(codec) && Framed(content) ==>
          Lines(AppendLine(content, data)) == Lines(content) + [data] by {
        if FramedCodec(codec) && Framed(content) {
          AppendLineAddsRecord(content, data);
        }
      }
      StoreStep(AppendLine(content, data), true)
  }

  /** Appending the records of `items` to a framed file adds exactly their
      encodings. */
  lemma AppendRendered(codec: Codec, content: string, items: seq<BatchItem>)
    requires FramedCodec(codec) && Framed(content)
    ensures Lines(content + Render(Encoded(codec, items))) == Lines(content) + Encoded(codec, items)
  {
    LinesConcat(content, Render(Encoded(codec, items)));
    LinesOfRender(Encoded(codec, items));
  }

  lemma RenderedFramed(codec: Codec, content: string, items: seq<BatchItem>)
    requires Framed(content)
    ensures Framed(content + Render(Encoded(codec, items)))
  {
    RenderFramed(Encoded(codec, items));
    if Render(Encoded(codec, items)) == [] {
      assert content + Render(Encoded(codec, items)) == content;
    }
  }

  /** The records an append leaves when item `k` faults: the first `k`
      complete, then the faulting one as far as it got. */
  lemma FaultedAppendLines(codec: Codec, content: string, items: seq<BatchItem>, k: nat, f: LineFault)
    requires FramedCodec(codec) && Framed(content) && k < |items|
    ensures var before := content + Render(Encoded(codec, items[..k]));
      Lines(AppendItem(codec, before, items[k], Some(f)).content)
        == Lines(content) + Encoded(codec, items[..if f == Unwritten then k else k + 1])
  {
    var e := Encoded(codec, items[..k]);
    var before := content + Render(e);
    AppendRendered(codec, content, items[..k]);
    RenderedFramed(codec, content, items[..k]);
    var r := AppendItem(codec, before, items[k], Some(f));
    assert Lines(r.content) == Lines(content) + e + (if f == Unwritten then [] else [codec.encode(items[k])]);
    if f != Unwritten {
      EncodedSnoc(codec, items, k);
    }
  }

  lemma EncodedSnoc(codec: Codec, items: seq<BatchItem>, k: nat)
    requires k < |items|
    ensures Encoded(codec, items[..k + 1]) == Encoded(codec, items[..k]) + [codec.encode(items[k])]
  {
    assert items[..k + 1] == items[..k] + [items[k]];
    MapConcat(codec.encode, items[..k], [items[k]]);
  }

  /** `append(_ items:)`: nothing at all for an empty list; otherwise each
      item becomes one record at the tail, in list order, until the first
      item whose encoding or `appendLine` throws, which leaves its own
      record as `AppendItem` does. */
  function AppendItems(codec: Codec, content: string, items: seq<BatchItem>, outcome: AppendOutcome): (r: StoreStep)
    ensures items == [] ==> r == StoreStep(content, false)
    ensures r.threw <==> Throws(|items|, outcome)
    ensures Framed(content) && !Unterminates(|items|, outcome) ==> Framed(r.content)
    ensures FramedCodec(codec) && Unterminates(|items|, outcome) ==> !Framed(r.content)
    ensures FramedCodec(codec) && Framed(content) ==>
      Lines(r.content) == Lines(content) + Encoded(codec, items[..Written(|items|, outcome)])
  {
    if items == [] then StoreStep(content, false)
    else if !Throws(|items|, outcome) then
      var after := content + Render(Encoded(codec, items));
      assert items[..|items|] == items;
      assert Framed(content) ==> Framed(after) by {
        if Framed(content) {
          RenderedFramed(codec, content, items);
        }
      }
      assert FramedCodec(codec) && Framed(content) ==> Lines(after) == Lines(content) + Encoded(codec, items) by {
        if FramedCodec(codec) && Framed(content) {
          AppendRendered(codec, content, items);
        }
      }
      StoreStep(after, false)
    else
      var k := outcome.index;
      var before := content + Render(Encoded(codec, items[..k]));
      var r := AppendItem(codec, before, items[k], Some(outcome.fault));
      assert Framed(content) ==> Framed(before) by {
        if Framed(content) {
          RenderedFramed(codec, content, items[..k]);
        }
      }
      assert FramedCodec(codec) && Framed(content) ==>
          Lines(r.content) == Lines(content) + Encoded(codec, items[..Written(|items|, outcome)]) by {
        if FramedCodec(codec) && Framed(content) {
          FaultedAppendLines(codec, content, items, k, outcome.fault);
        }
      }
      r
  }

  /** Where a drain can throw: reading the file, the atomic rewrite of the
      remainder, the `appendLine` of the final line break before that line
      break is written (opening, seeking or writing), or the close after it
      is written. */
  datatype DrainFault = NoFault | ReadFails | RewriteFails | TerminatorFails | CloseFails

  /** The items handed to the caller, the content left behind, and whether
      the drain threw (in which case the caller gets no items). */
  datatype DrainStep = DrainStep(items: seq<BatchItem>, content: string, threw: bool)

  /** `drain(limit:)`.  The first `limit` records are removed; the ones that
      decode are returned in order and the others are dropped silently.
      The remaining records are rewritten in order, followed by a line break
      when there are any.  An empty file is left untouched.  A fault after
      the rewrite throws, so the removed items are lost to the caller. */
  function Drain(codec: Codec, content: string, limit: int, fault: DrainFault): (r: DrainStep)
    ensures r.threw <==>
      || fault == ReadFails
      || (Lines(content) != [] && fault == RewriteFails)
      || ((fault == TerminatorFails || fault == CloseFails) && HeadCount(limit, |Lines(content)|) < |Lines(content)|)
    ensures r.threw ==> r.items == []
    ensures r.threw && (fault == ReadFails || fault == RewriteFails) ==> r.content == content
    ensures Lines(content) == [] ==> r.items == [] && r.content == content
    ensures !r.threw || fault == CloseFails ==> Framed(r.content)
    ensures !r.threw ==> r.items == DecodeAll(codec, Lines(content)[..HeadCount(limit, |Lines(content)|)])
    ensures !r.threw || fault == TerminatorFails || fault == CloseFails ==>
      Lines(r.content) == Lines(content)[HeadCount(limit, |Lines(content)|)..]
  {
    if fault == ReadFails then DrainStep([], content, true)
    else
      var lines := Lines(content);
      if lines == [] then
        NoLinesFramed(content);
        DrainStep([], content, false)
      else
        var m := HeadCount(limit, |lines|);
        var items := DecodeAll(codec, lines[..m]);
        var remaining := lines[m..];
        var remainder := Join(remaining, "\n");
        JoinOfRecordsEmpty(remaining);
        if fault == RewriteFails then DrainStep([], content, true)
        else if remainder == [] then
          DrainStep(items, remainder, false)
        else
          SplitJoinLines(remaining);
          if fault == TerminatorFails then
            LinesDropTerminator(remainder);
            DrainStep([], remainder, true)
          else if fault == CloseFails then DrainStep([], remainder + "\n", true)
          else DrainStep(items, remainder + "\n", false)
  }

  /** `count()`: the number of records, blank lines not counted. */
  function Count(content: string): nat {
    |Lines(content)|
  }

  /** `clear()`: the file is atomically replaced by an empty one, or the
      write throws and nothing changes. */
  function Clear(content: string, ok: bool): (r: StoreStep)
    ensures r.threw <==> !ok
    ensures ok ==> Count(r.content) == 0 && Framed(r.content)
    ensures !ok ==> r.content == content
  {
    if ok then StoreStep("", false) else StoreStep(content, true)
  }

  /** The drain loop exactly as written: walk the records with their index,
      decode the ones before `limit`, keep the rest. */
  method DrainLoop(codec: Codec, lines: seq<string>, limit: int) returns (items: seq<BatchItem>, remaining: seq<string>)
    ensures items == DecodeAll(codec, lines[..HeadCount(limit, |lines|)])
    ensures remaining == lines[HeadCount(limit, |lines|)..]
  {
    items := [];
    remaining := [];
    var idx := 0;
    while idx < |lines|
      invariant 0 <= idx <= |lines|
      invariant items == DecodeAll(codec, lines[..Min(idx, HeadCount(limit, |lines|))])
      invariant remaining == lines[Min(idx, HeadCount(limit, |lines|))..idx]
    {
      if idx < limit {
        DecodeAllSnoc(codec, lines[..idx], lines[idx]);
        assert lines[..idx + 1] == lines[..idx] + [lines[idx]];
        match codec.decode(lines[idx]) {
          case Some(x) => items := items + [x];
          case None =>
        }
      } else {
        remaining := remaining + [lines[idx]];
      }
      idx := idx + 1;
    }
    assert lines[..|lines|] == lines;
  }

  lemma {:induction false} DecodeAllConcat(codec: Codec, a: seq<string>, b: seq<string>)
    ensures DecodeAll(codec, a + b) == DecodeAll(codec, a) + DecodeAll(codec, b)
  {
    if a == [] {
      assert a + b == b;
    } else {
      assert (a + b)[1..] == a[1..] + b;
      DecodeAllConcat(codec, a[1..], b);
    }
  }

  lemma DecodeAllSnoc(codec: Codec, a: seq<string>, l: string)
    ensures DecodeAll(codec, a + [l]) ==
      DecodeAll(codec, a) + (match codec.decode(l) case Some(x) => [x] case None => [])
  {
    DecodeAllConcat(codec, a, [l]);
  }

  /** Decoding the encodings of items gives the items back, when the coder
      round-trips. */
  lemma {:induction false} DecodeEncoded(codec: Codec, items: seq<BatchItem>)
    requires RoundTrips(codec)
    ensures DecodeAll(codec, Encoded(codec, items)) == items
  {
    if items != [] {
      assert Encoded(codec, items)[1..] == Encoded(codec, items[1..]);
      DecodeEncoded(codec, items[1..]);
    }
  }

  // ---------------------------------------------------------------------
  // Properties of the operations.

  /** After a drain the store holds max(0, k - limit) records for a
      non-negative limit, and all k of them for a non-positive one. */
  lemma DrainCount(codec: Codec, content: string, limit: int)
    ensures var r := Drain(codec, content, limit, NoFault);
      && (limit >= 0 ==> Count(r.content) == Max(0, Count(content) - limit))
      && (limit <= 0 ==> Lines(r.content) == Lines(content))
  {
  }

  /** A drain hands back at most min(k, limit) items; exactly that many when
      every record it removes decodes. */
  lemma {:induction false} DrainBound(codec: Codec, content: string, limit: int)
    ensures var r := Drain(codec, content, limit, NoFault);
      && |r.items| <= HeadCount(limit, Count(content))
      && ((forall i :: 0 <= i < HeadCount(limit, Count(content)) ==> codec.decode(Lines(content)[i]).Some?)
          ==> |r.items| == HeadCount(limit, Count(content)))
  {
    var ls := Lines(content)[..HeadCount(limit, Count(content))];
    if forall i :: 0 <= i < |ls| ==> codec.decode(ls[i]).Some? {
      DecodeAllTotal(codec, ls);
    }
  }

  lemma {:induction false} DecodeAllTotal(codec: Codec, ls: seq<string>)
    requires forall i :: 0 <= i < |ls| ==> codec.decode(ls[i]).Some?
    ensures |DecodeAll(codec, ls)| == |ls|
  {
    if ls != [] {
      DecodeAllTotal(codec, ls[1..]);
    }
  }

  /** A record that fails to decode is removed by the drain that reaches it
      but is not returned. */
  lemma UndecodableHeadDropped(codec: Codec, content: string, limit: int)
    requires 0 < limit && Lines(content) != []
    requires codec.decode(Lines(content)[0]).None?
    ensures var r := Drain(codec, content, limit, NoFault);
      && r.items == DecodeAll(codec, Lines(content)[1..HeadCount(limit, Count(content))])
      && Count(r.content) == Count(content) - HeadCount(limit, Count(content))
  {
    var ls := Lines(content);
    var m := HeadCount(limit, |ls|);
    assert ls[..m][1..] == ls[1..m];
  }

  /** Draining records written by a round-tripping coder returns the very
      items that were appended, oldest first. */
  lemma DrainReturnsAppended(codec: Codec, items: seq<BatchItem>, limit: int)
    requires FramedCodec(codec) && RoundTrips(codec)
    ensures var r := Drain(codec, AppendItems(codec, Created, items, Completed).content, limit, NoFault);
      && r.items == items[..HeadCount(limit, |items|)]
      && Lines(r.content) == Encoded(codec, items[HeadCount(limit, |items|)..])
  {
    var c := AppendItems(codec, Created, items, Completed).content;
    assert items[..|items|] == items;
    assert Lines(c) == Encoded(codec, items);
    var m := HeadCount(limit, |items|);
    assert Encoded(codec, items)[..m] == Encoded(codec, items[..m]);
    assert Encoded(codec, items)[m..] == Encoded(codec, items[m..]);
    DecodeEncoded(codec, items[..m]);
  }

  /** After `clear()` the store is empty, and a drain then returns nothing
      whatever goes wrong during it. */
  lemma ClearThenDrain(codec: Codec, content: string, limit: int, fault: DrainFault)
    ensures var c := Clear(content, true).content;
      && Count(c) == 0
      && Drain(codec, c, limit, fault).items == []
      && Drain(codec, c, limit, fault).content == c
  {
  }

  /** The store operations, as seen from outside. */
  datatype StoreOp =
    | AppendOne(item: BatchItem, lineFault: Option<LineFault>)
    | AppendMany(items: seq<BatchItem>, outcome: AppendOutcome)
    | DrainOp(limit: int, fault: DrainFault)
    | ClearOp(ok: bool)

  function Step(codec: Codec, content: string, op: StoreOp): string {
    match op
    case AppendOne(x, f) => AppendItem(codec, content, x, f).content
    case AppendMany(xs, o) => AppendItems(codec, content, xs, o).content
    case DrainOp(l, f) => Drain(codec, content, l, f).content
    case ClearOp(ok) => Clear(content, ok).content
  }

  function Run(codec: Codec, content: string, ops: seq<StoreOp>): string
    decreases |ops|
  {
    if ops == [] then content else Run(codec, Step(codec, content, ops[0]), ops[1..])
  }

  /** An operation whose line-break write fails after its record (or, for
      a drain, its rewritten remainder) is already in the file. */
  predicate LosesTerminator(op: StoreOp) {
    match op
    case AppendOne(_, f) => f == Some(Unterminated)
    case AppendMany(xs, o) => Unterminates(|xs|, o)
    case DrainOp(_, f) => f == TerminatorFails
    case ClearOp(_) => false
  }

  /** The framing invariant: starting from the freshly created file, the
      content is empty or ends with a line break after any sequence of
      operations, unless an append or a drain failed between its data and
      its final line break. */
  lemma {:induction false} FramedAlways(codec: Codec, content: string, ops: seq<StoreOp>)
    requires Framed(content)
    requires forall i :: 0 <= i < |ops| ==> !LosesTerminator(ops[i])
    ensures Framed(Run(codec, content, ops))
    decreases |ops|
  {
    if ops != [] {
      FramedAlways(codec, Step(codec, content, ops[0]), ops[1..]);
    }
  }

  /** The exclusion is needed: an append whose line-break write fails leaves
      its record unterminated, and the next record appended is glued onto
      it, so the file reads as one record where two were written. */
  lemma UnterminatedAppendMerges(codec: Codec, content: string, x: BatchItem, y: BatchItem)
    requires FramedCodec(codec) && Framed(content)
    ensures var first := AppendItem(codec, content, x, Some(Unterminated));
      var second := AppendItem(codec, first.content, y, None);
      && first.threw && !Framed(first.content) && !second.threw
      && Lines(second.content) == Lines(content) + [codec.encode(x) + codec.encode(y)]
  {
    var ex := codec.encode(x);
    var ey := codec.encode(y);
    assert Line(ex) && Line(ey);
    assert Line(ex + ey);
    assert AppendLine(content + ex, ey) == content + (ex + ey + "\n");
    LinesConcat(content, ex + ey + "\n");
    LinesOfRecord(ex + ey);
  }

  /** An append whose close fails still stores its record: the caller sees
      a throw, yet the item is in the file. */
  lemma UnclosedAppendStored(codec: Codec, content: string, x: BatchItem)
    requires FramedCodec(codec) && Framed(content)
    ensures var r := AppendItem(codec, content, x, Some(Unclosed));
      r.threw && Framed(r.content) && Lines(r.content) == Lines(content) + [codec.encode(x)]
  {
  }

  /** The one unframed case is real: a drain whose final line-break write
      fails leaves the last record unterminated, and the next record
      appended is glued onto it. */
  lemma TerminatorFaultMergesRecords()
    ensures var codec := Codec(x => "x", l => None);
      var d := Drain(codec, "a\nb\n", 1, TerminatorFails);
      && d.threw && d.content == "b" && !Framed(d.content)
      && Lines(AppendLine(d.content, "c")) == ["bc"]
  {
    assert Render(["a", "b"]) == "a\nb\n";
    LinesOfRender(["a", "b"]);
    LinesOfRecord("bc");
    assert AppendLine("b", "c") == "bc" + "\n";
  }
}
