/** Resolving media references in a request: images of current tool results follow the
    block of results as one synthetic user message. */
module Media {
  import opened Messages
  import opened Seqs
  import opened Sanitize
  import opened Text

  datatype InlineMode = InlineOff | InlineTool | InlineAuto

  /** What the media store says about one reference: not a store reference at all, a
      reference that no longer resolves, or a file with its path tag and, for an image
      that can be encoded, its data URL. */
  datatype Ref = Literal | Missing | File(tag: string, isImage: bool, dataURL: string)

  datatype Store = Store(look: string -> Ref, inject: (string, seq<string>) -> string)

  // ----- One message

  datatype Refs = Refs(kept: seq<string>, tags: seq<string>, images: seq<string>)

  /** Adds one reference to what was collected from the earlier ones. */
  function AddRef(r: Refs, ref: string, role: Role, current: bool, mode: InlineMode, store: Store): Refs {
    match store.look(ref)
    case Literal => r.(kept := r.kept + [ref])
    case Missing => r
    case File(tag, isImage, dataURL) =>
      var t := r.(tags := r.tags + [tag]);
      if mode == InlineOff || !isImage || dataURL == "" then t
      else if role != Tool then (if mode == InlineAuto then t.(kept := t.kept + [dataURL]) else t)
      else if current then t.(images := t.images + [dataURL])
      else t
  }

  function CollectRefs(media: seq<string>, role: Role, current: bool, mode: InlineMode, store: Store): Refs {
    if media == [] then Refs([], [], [])
    else
      var n := |media| - 1;
      AddRef(CollectRefs(media[..n], role, current, mode, store), media[n], role, current, mode, store)
  }

  function Resolved(m: Message, current: bool, mode: InlineMode, store: Store): (r: Message)
    ensures r.role == m.role && r.calls == m.calls && r.callId == m.callId
  {
    if m.media == [] then m
    else
      var c := CollectRefs(m.media, m.role, current, mode, store);
      m.(media := c.kept, content := if c.tags == [] then m.content else store.inject(m.content, c.tags))
  }

  /** The images a message hands on to the follow-up. */
  function Images(m: Message, current: bool, mode: InlineMode, store: Store): seq<string> {
    CollectRefs(m.media, m.role, current, mode, store).images
  }

  lemma {:induction false} OnlyToolsHandOnImages(
    media: seq<string>, role: Role, current: bool, mode: InlineMode, store: Store)
    requires role != Tool || !current || mode == InlineOff
    ensures CollectRefs(media, role, current, mode, store).images == []
  {
    if media != [] {
      OnlyToolsHandOnImages(media[..|media| - 1], role, current, mode, store);
    }
  }

  // ----- The whole request

  /** An output message: one of the input, or a synthetic follow-up. */
  datatype Out = Original(m: Message) | Followup(images: seq<string>)

  function FollowupMessage(images: seq<string>): Message {
    Message(User, "[Loaded image from tool result above]", images, [], "")
  }

  function Flat(out: seq<Out>): seq<Message> {
    if out == [] then []
    else [if out[0].Original? then out[0].m else FollowupMessage(out[0].images)] + Flat(out[1..])
  }

  function Flush(pending: seq<string>): seq<Out> {
    if pending == [] then [] else [Followup(pending)]
  }

  /** A message after its references are resolved, with the images it hands on. */
  datatype Item = Item(msg: Message, images: seq<string>)

  predicate OnlyToolImages(items: seq<Item>) {
    forall x :: x in items ==> x.images == [] || x.msg.role == Tool
  }

  /** The output, with images still `pending` from the results before. */
  function Emit(items: seq<Item>, pending: seq<string>): seq<Out> {
    if items == [] then Flush(pending)
    else if items[0].msg.role == Tool then
      [Original(items[0].msg)] + Emit(items[1..], pending + items[0].images)
    else Flush(pending) + ([Original(items[0].msg)] + Emit(items[1..], []))
  }

  function Msgs(items: seq<Item>): (ms: seq<Message>)
    ensures |ms| == |items| && forall i :: 0 <= i < |items| ==> ms[i] == items[i].msg
  {
    if items == [] then [] else [items[0].msg] + Msgs(items[1..])
  }

  /** All images handed on, in order. */
  function AllImages(items: seq<Item>): seq<string> {
    if items == [] then [] else items[0].images + AllImages(items[1..])
  }

  // ----- Nothing is lost

  function Originals(out: seq<Out>): seq<Message> {
    if out == [] then []
    else (if out[0].Original? then [out[0].m] else []) + Originals(out[1..])
  }

  function FollowupImages(out: seq<Out>): seq<string> {
    if out == [] then []
    else (if out[0].Followup? then out[0].images else []) + FollowupImages(out[1..])
  }

  lemma Cons(x: Out, out: seq<Out>)
    ensures Originals([x] + out) == (if x.Original? then [x.m] else []) + Originals(out)
    ensures FollowupImages([x] + out) == (if x.Followup? then x.images else []) + FollowupImages(out)
    ensures Flat([x] + out) == [if x.Original? then x.m else FollowupMessage(x.images)] + Flat(out)
  {
    assert ([x] + out)[1..] == out;
  }

  lemma FlushBefore(pending: seq<string>, out: seq<Out>)
    ensures Originals(Flush(pending) + out) == Originals(out)
    ensures FollowupImages(Flush(pending) + out) == pending + FollowupImages(out)
    ensures Flat(Flush(pending) + out) == (if pending == [] then [] else [FollowupMessage(pending)]) + Flat(out)
  {
    if pending == [] {
      assert Flush(pending) + out == out;
    } else {
      Cons(Followup(pending), out);
    }
  }

  function FlushMessages(pending: seq<string>): seq<Message> {
    if pending == [] then [] else [FollowupMessage(pending)]
  }

  /** What one message adds to the output. */
  lemma EmitFirst(items: seq<Item>, pending: seq<string>, p: seq<string>)
    requires items != []
    requires p == if items[0].msg.role == Tool then pending + items[0].images else []
    ensures var x, out, rest := items[0], Emit(items, pending), Emit(items[1..], p);
      && Originals(out) == [x.msg] + Originals(rest)
      && FollowupImages(out) == (if x.msg.role == Tool then [] else pending) + FollowupImages(rest)
      && Flat(out) == (if x.msg.role == Tool then [] else FlushMessages(pending)) + ([x.msg] + Flat(rest))
  {
    var x, rest := items[0], Emit(items[1..], p);
    if x.msg.role == Tool {
      assert Emit(items, pending) == [Original(x.msg)] + rest;
      ToolFirst(x.msg, rest);
    } else {
      assert Emit(items, pending) == Flush(pending) + ([Original(x.msg)] + rest);
      OtherFirst(pending, x.msg, rest);
    }
  }

  lemma ToolFirst(m: Message, rest: seq<Out>)
    ensures var out := [Original(m)] + rest;
      && Originals(out) == [m] + Originals(rest)
      && FollowupImages(out) == [] + FollowupImages(rest)
      && Flat(out) == [] + ([m] + Flat(rest))
  {
    Cons(Original(m), rest);
  }

  lemma OtherFirst(pending: seq<string>, m: Message, rest: seq<Out>)
    ensures var out := Flush(pending) + ([Original(m)] + rest);
      && Originals(out) == [m] + Originals(rest)
      && FollowupImages(out) == pending + FollowupImages(rest)
      && Flat(out) == FlushMessages(pending) + ([m] + Flat(rest))
  {
    Cons(Original(m), rest);
    FlushBefore(pending, [Original(m)] + rest);
  }

  lemma EmitNothing(pending: seq<string>)
    ensures var out := Emit([], pending);
      Originals(out) == [] && FollowupImages(out) == pending && Flat(out) == FlushMessages(pending)
  {
    FlushBefore(pending, []);
    assert Flush(pending) + [] == Flush(pending);
  }

  /** Erasing the follow-ups gives back the input messages one for one. */
  lemma {:induction false} OriginalsKept(items: seq<Item>, pending: seq<string>)
    ensures Originals(Emit(items, pending)) == Msgs(items)
    decreases |items|
  {
    if items == [] {
      EmitNothing(pending);
    } else {
      var p := if items[0].msg.role == Tool then pending + items[0].images else [];
      OriginalsKept(items[1..], p);
      EmitFirst(items, pending, p);
    }
  }

  /** The images handed on appear in the follow-ups exactly once, in order. */
  lemma {:induction false} ImagesKept(items: seq<Item>, pending: seq<string>)
    requires OnlyToolImages(items)
    ensures FollowupImages(Emit(items, pending)) == pending + AllImages(items)
    decreases |items|
  {
    if items == [] {
      EmitNothing(pending);
    } else {
      var x := items[0];
      assert x in items;
      var p := if x.msg.role == Tool then pending + x.images else [];
      ImagesKept(items[1..], p);
      EmitFirst(items, pending, p);
      Assoc(pending, x.images, AllImages(items[1..]));
    }
  }

  // ----- Follow-ups stand only behind a finished block of results

  /** Each follow-up comes right after a result and is not followed by one; `tool` says
      whether a result comes right before `out`. */
  predicate FollowsBlocks(out: seq<Out>, tool: bool) {
    out == [] ||
    if out[0].Original? then FollowsBlocks(out[1..], out[0].m.role == Tool)
    else
      && tool
      && (|out| == 1 || (out[1].Original? && out[1].m.role != Tool))
      && FollowsBlocks(out[1..], false)
  }

  lemma {:induction false} FollowupsFollowBlocks(items: seq<Item>, pending: seq<string>, tool: bool)
    requires pending != [] ==> tool
    ensures FollowsBlocks(Emit(items, pending), tool)
    decreases |items|
  {
    var out := Emit(items, pending);
    if items == [] {
    } else if items[0].msg.role == Tool {
      FollowupsFollowBlocks(items[1..], pending + items[0].images, true);
      assert out[1..] == Emit(items[1..], pending + items[0].images);
    } else {
      FollowupsFollowBlocks(items[1..], [], false);
      var rest := [Original(items[0].msg)] + Emit(items[1..], []);
      assert rest[1..] == Emit(items[1..], []);
      assert FollowsBlocks(rest, false) && FollowsBlocks(rest, true);
      if pending == [] {
        assert out == rest;
      } else {
        assert out[1..] == rest;
      }
    }
  }

  // ----- Normal histories stay normal

  predicate SameShape(a: seq<Message>, b: seq<Message>) {
    && |a| == |b|
    && forall i :: 0 <= i < |a| ==> a[i].role == b[i].role && a[i].calls == b[i].calls && a[i].callId == b[i].callId
  }

  lemma {:induction false} SameCallIds(a: seq<Message>, b: seq<Message>)
    requires SameShape(a, b)
    ensures CallIds(a) == CallIds(b)
    ensures ToolRun(a) == ToolRun(b)
  {
    if a != [] {
      SameCallIds(a[1..], b[1..]);
    }
  }

  lemma {:induction false} NormalIsShape(a: seq<Message>, b: seq<Message>, ready: bool)
    requires SameShape(a, b) && Normal(a, ready)
    ensures Normal(b, ready)
    decreases |a|
  {
    if a != [] {
      SameCallIds(a[1..], b[1..]);
      if IsCaller(a[0]) {
        var n := ToolRun(a[1..]);
        SameCallIds(a[1..][..n], b[1..][..n]);
        NormalIsShape(a[1..][n..], b[1..][n..], true);
      } else {
        NormalIsShape(a[1..], b[1..], a[0].role == User);
      }
    }
  }

  /** A run of results is emitted as it is, collecting its images. */
  lemma {:induction false} EmitBlock(items: seq<Item>, n: nat, pending: seq<string>) returns (images: seq<string>)
    requires n <= |items|
    requires forall i :: 0 <= i < n ==> items[i].msg.role == Tool
    ensures Flat(Emit(items, pending)) == Msgs(items[..n]) + Flat(Emit(items[n..], images))
    decreases n
  {
    if n == 0 {
      images := pending;
      assert items[0..] == items;
    } else {
      var p := pending + items[0].images;
      EmitFirst(items, pending, p);
      images := EmitBlock(items[1..], n - 1, p);
      EmitMore(items, n, Flat(Emit(items[n..], images)));
      DropDrop(items, 1, n - 1);
    }
  }

  lemma EmitMore(items: seq<Item>, n: nat, rest: seq<Message>)
    requires 0 < n <= |items|
    ensures [] + ([items[0].msg] + (Msgs(items[1..][..n - 1]) + rest)) == Msgs(items[..n]) + rest
  {
    MsgsFirst(items, n);
  }

  lemma MsgsFirst(items: seq<Item>, n: nat)
    requires 0 < n <= |items|
    ensures Msgs(items[..n]) == [items[0].msg] + Msgs(items[1..][..n - 1])
  {
    assert items[..n][1..] == items[1..][..n - 1];
  }

  /** What is emitted where no result follows does not start with one. */
  lemma EmitStart(items: seq<Item>, pending: seq<string>)
    requires items == [] || items[0].msg.role != Tool
    ensures var f := Flat(Emit(items, pending)); f == [] || f[0].role != Tool
  {
    if items == [] {
      EmitNothing(pending);
    } else {
      EmitFirst(items, pending, []);
    }
  }

  lemma NormalWhenReady(h: seq<Message>, ready: bool)
    requires Normal(h, ready)
    ensures Normal(h, true)
  {
  }

  lemma NormalBehindFollowup(pending: seq<string>, f: seq<Message>, ready: bool)
    requires Normal(f, pending != [] || ready)
    ensures Normal((if pending == [] then [] else [FollowupMessage(pending)]) + f, ready)
  {
    if pending == [] {
      assert [] + f == f;
    } else {
      assert ([FollowupMessage(pending)] + f)[1..] == f;
    }
  }

  lemma {:induction false} EmitKeepsNormal(items: seq<Item>, pending: seq<string>, ready: bool)
    requires Normal(Msgs(items), ready)
    ensures Normal(Flat(Emit(items, pending)), ready)
    decreases |items|
  {
    if items == [] {
      FlushBefore(pending, []);
      assert Flush(pending) + [] == Flush(pending);
      NormalBehindFollowup(pending, [], ready);
    } else {
      var x := items[0];
      var rest := [Original(x.msg)] + Emit(items[1..], []);
      FlushBefore(pending, rest);
      Cons(Original(x.msg), Emit(items[1..], []));
      assert Msgs(items)[1..] == Msgs(items[1..]);
      if pending != [] {
        NormalWhenReady(Msgs(items), ready);
      }
      if IsCaller(x.msg) {
        EmitGroupKeepsNormal(items, pending != [] || ready);
      } else {
        EmitKeepsNormal(items[1..], [], x.msg.role == User);
        assert Flat(rest)[1..] == Flat(Emit(items[1..], []));
      }
      NormalBehindFollowup(pending, Flat(rest), ready);
    }
  }

  lemma {:induction false} EmitGroupKeepsNormal(items: seq<Item>, ready: bool)
    requires items != [] && IsCaller(items[0].msg) && Normal(Msgs(items), ready)
    ensures Normal([items[0].msg] + Flat(Emit(items[1..], [])), ready)
    decreases |items|, 0
  {
    var ms := Msgs(items)[1..];
    assert ms == Msgs(items[1..]);
    var n := ToolRun(ms);
    var tail := items[1..];
    assert forall i :: 0 <= i < n ==> tail[i].msg == ms[i];
    var images := EmitBlock(tail, n, []);
    assert ms[n..] == Msgs(tail[n..]) && ms[..n] == Msgs(tail[..n]);
    EmitKeepsNormal(tail[n..], images, true);
    EmitStart(tail[n..], images);
    ToolRunAppend(ms[..n], Flat(Emit(tail[n..], images)));
    var g := [items[0].msg] + Flat(Emit(tail, []));
    assert g[1..] == ms[..n] + Flat(Emit(tail[n..], images));
  }

  // ----- The call

  /** The settings of one call. */
  datatype Job = Job(messages: seq<Message>, start: int, mode: InlineMode, store: Store) {
    function ItemAt(k: nat): Item
      requires k < |messages|
    {
      Item(Resolved(messages[k], k >= start, mode, store), Images(messages[k], k >= start, mode, store))
    }

    function Items(k: nat): (items: seq<Item>)
      requires k <= |messages|
      ensures |items| == |messages| - k
      ensures forall i :: 0 <= i < |items| ==> items[i] == ItemAt(k + i)
      decreases |messages| - k
    {
      if k == |messages| then [] else [ItemAt(k)] + Items(k + 1)
    }
  }

  lemma JobItems(job: Job)
    ensures OnlyToolImages(job.Items(0))
    ensures SameShape(job.messages, Msgs(job.Items(0)))
  {
    forall k | 0 <= k < |job.messages|
      ensures job.ItemAt(k).images == [] || job.ItemAt(k).msg.role == Tool
    {
      var m := job.messages[k];
      if m.role != Tool {
        OnlyToolsHandOnImages(m.media, m.role, k >= job.start, job.mode, job.store);
      }
    }
  }

  /** The data URLs of the images among `media` that could be encoded, in order. */
  function DataURLs(media: seq<string>, store: Store): seq<string> {
    if media == [] then []
    else
      var head := match store.look(media[0])
        case File(_, isImage, dataURL) => if isImage && dataURL != "" then [dataURL] else []
        case _ => [];
      head + DataURLs(media[1..], store)
  }

  /** The images of the tool results of the current turn, from message `k` on. */
  function TurnImages(job: Job, k: nat): seq<string>
    requires k <= |job.messages|
    decreases |job.messages| - k
  {
    if k == |job.messages| then []
    else
      var m := job.messages[k];
      (if m.role == Tool && k >= job.start && job.mode != InlineOff then DataURLs(m.media, job.store) else [])
        + TurnImages(job, k + 1)
  }

  lemma {:induction false} DataURLsAppend(media: seq<string>, ref: string, store: Store)
    ensures DataURLs(media + [ref], store) == DataURLs(media, store) + DataURLs([ref], store)
  {
    if media != [] {
      assert (media + [ref])[1..] == media[1..] + [ref];
      DataURLsAppend(media[1..], ref, store);
    } else {
      assert media + [ref] == [ref];
    }
  }

  lemma {:induction false} ToolHandsOnImages(media: seq<string>, mode: InlineMode, store: Store)
    requires mode != InlineOff
    ensures CollectRefs(media, Tool, true, mode, store).images == DataURLs(media, store)
  {
    if media != [] {
      var n := |media| - 1;
      ToolHandsOnImages(media[..n], mode, store);
      DataURLsAppend(media[..n], media[n], store);
      assert media[..n] + [media[n]] == media;
      assert [media[n]][1..] == [];
    }
  }

  lemma {:induction false} ItemsHandOnImages(job: Job, k: nat)
    requires k <= |job.messages|
    ensures AllImages(job.Items(k)) == TurnImages(job, k)
    decreases |job.messages| - k
  {
    if k < |job.messages| {
      ItemsHandOnImages(job, k + 1);
      ItemImages(job, k);
      AllImagesFrom(job, k);
    }
  }

  lemma AllImagesFrom(job: Job, k: nat)
    requires k < |job.messages|
    ensures AllImages(job.Items(k)) == job.ItemAt(k).images + AllImages(job.Items(k + 1))
  {
    assert job.Items(k)[1..] == job.Items(k + 1);
  }

  lemma ItemImages(job: Job, k: nat)
    requires k < |job.messages|
    ensures var m := job.messages[k];
      job.ItemAt(k).images ==
      if m.role == Tool && k >= job.start && job.mode != InlineOff then DataURLs(m.media, job.store) else []
  {
    var m := job.messages[k];
    if m.role == Tool && k >= job.start && job.mode != InlineOff {
      ToolHandsOnImages(m.media, job.mode, job.store);
    } else {
      OnlyToolsHandOnImages(m.media, m.role, k >= job.start, job.mode, job.store);
    }
  }

  /** The path tags of all references that resolve, in order. */
  function PathTags(media: seq<string>, store: Store): seq<string> {
    if media == [] then []
    else (if store.look(media[0]).File? then [store.look(media[0]).tag] else []) + PathTags(media[1..], store)
  }

  /** What stays attached: references that are none of the store's, and where images are
      inlined the images that can be encoded; in order. */
  function Attached(media: seq<string>, inlined: bool, store: Store): seq<string> {
    if media == [] then []
    else
      var ref := store.look(media[0]);
      (if ref.Literal? then [media[0]]
       else if inlined && ref.File? && ref.isImage && ref.dataURL != "" then [ref.dataURL]
       else []) + Attached(media[1..], inlined, store)
  }

  lemma {:induction false} TagsAppend(media: seq<string>, ref: string, inlined: bool, store: Store)
    ensures PathTags(media + [ref], store) == PathTags(media, store) + PathTags([ref], store)
    ensures Attached(media + [ref], inlined, store) == Attached(media, inlined, store) + Attached([ref], inlined, store)
  {
    if media == [] {
      assert media + [ref] == [ref];
    } else {
      assert (media + [ref])[1..] == media[1..] + [ref] && (media + [ref])[0] == media[0];
      TagsAppend(media[1..], ref, inlined, store);
    }
  }

  lemma OneTag(ref: string, inlined: bool, store: Store)
    ensures PathTags([ref], store) == if store.look(ref).File? then [store.look(ref).tag] else []
    ensures Attached([ref], inlined, store) ==
      var x := store.look(ref);
      if x.Literal? then [ref] else if inlined && x.File? && x.isImage && x.dataURL != "" then [x.dataURL] else []
  {
    assert [ref][1..] == [];
  }

  lemma {:induction false} CollectedAre(media: seq<string>, role: Role, current: bool, mode: InlineMode, store: Store)
    ensures var c := CollectRefs(media, role, current, mode, store);
      c.tags == PathTags(media, store) && c.kept == Attached(media, mode == InlineAuto && role != Tool, store)
  {
    if media != [] {
      var n := |media| - 1;
      CollectedAre(media[..n], role, current, mode, store);
      SplitLast(media);
      TagsAppend(media[..n], media[n], mode == InlineAuto && role != Tool, store);
      OneTag(media[n], mode == InlineAuto && role != Tool, store);
    }
  }

  /** What becomes of a message: it keeps the references that are none of the store's; every
      file it refers to is tagged in its text; and only in auto mode, and not in a tool
      result, are its images attached. */
  lemma MessageIsResolved(m: Message, current: bool, mode: InlineMode, store: Store)
    ensures var r, tags := Resolved(m, current, mode, store), PathTags(m.media, store);
      && r.media == Attached(m.media, mode == InlineAuto && m.role != Tool, store)
      && r.content == (if tags == [] then m.content else store.inject(m.content, tags))
  {
    CollectedAre(m.media, m.role, current, mode, store);
  }

  /** The promise of media resolution: with `out` the output and its follow-ups marked,
      no message is lost or reshaped, no image of a current tool result is lost or
      doubled, no block of results is broken, and what was normal stays normal. */
  lemma ResolutionKeepsConversation(job: Job)
    ensures var out := Emit(job.Items(0), []);
      && Originals(out) == Msgs(job.Items(0))
      && SameShape(job.messages, Originals(out))
      && (forall k :: 0 <= k < |job.messages| ==>
            Originals(out)[k] == Resolved(job.messages[k], k >= job.start, job.mode, job.store))
      && FollowupImages(out) == TurnImages(job, 0)
      && FollowsBlocks(out, false)
      && (Normal(job.messages, false) ==> Normal(Flat(out), false))
  {
    JobItems(job);
    var items := job.Items(0);
    OriginalsKept(items, []);
    ImagesKept(items, []);
    assert [] + AllImages(items) == AllImages(items);
    ItemsHandOnImages(job, 0);
    FollowupsFollowBlocks(items, [], false);
    if Normal(job.messages, false) {
      NormalIsShape(job.messages, Msgs(items), false);
      EmitKeepsNormal(items, [], false);
    }
  }

  method CollectRefsLoop(m: Message, current: bool, mode: InlineMode, store: Store, pending: seq<string>)
    returns (kept: seq<string>, tags: seq<string>, images: seq<string>)
    ensures var c := CollectRefs(m.media, m.role, current, mode, store);
      kept == c.kept && tags == c.tags && images == pending + c.images
  {
    kept, tags, images := [], [], pending;
    for i := 0 to |m.media|
      invariant var c := CollectRefs(m.media[..i], m.role, current, mode, store);
        kept == c.kept && tags == c.tags && images == pending + c.images
    {
      assert m.media[..i + 1][..i] == m.media[..i];
      var ref := m.media[i];
      match store.look(ref) {
        case Literal => kept := kept + [ref];
        case Missing =>
        case File(tag, isImage, dataURL) =>
          tags := tags + [tag];
          if mode == InlineOff {
          } else if mode == InlineAuto && m.role != Tool && isImage {
            if dataURL != "" {
              kept := kept + [dataURL];
            }
          } else if m.role == Tool && current && isImage {
            if dataURL != "" {
              images := images + [dataURL];
            }
          }
      }
    }
    assert m.media[..|m.media|] == m.media;
  }

  function Clamp(start: int, n: nat): (r: nat)
    ensures r <= n && (0 <= start <= n ==> r == start)
  {
    if start < 0 then 0 else if start > n then n else start
  }

  /** One round of the loop is one step of `Emit`. */
  lemma LoopRound(result: seq<Message>, items: seq<Item>, pending: seq<string>, add: seq<Message>, p: seq<string>)
    requires items != [] && (items[0].images == [] || items[0].msg.role == Tool)
    requires add == (if items[0].msg.role == Tool then [] else FlushMessages(pending)) + [items[0].msg]
    requires p == (if items[0].msg.role == Tool then pending else []) + items[0].images
    ensures result + Flat(Emit(items, pending)) == result + add + Flat(Emit(items[1..], p))
  {
    EmitFirst(items, pending, p);
    var flush := if items[0].msg.role == Tool then [] else FlushMessages(pending);
    var rest := Flat(Emit(items[1..], p));
    Assoc(flush, [items[0].msg], rest);
    Assoc(result, add, rest);
  }

  lemma LastFlush(result: seq<Message>, rest: seq<Item>, pending: seq<string>)
    requires rest == []
    ensures result + Flat(Emit(rest, pending)) == result + FlushMessages(pending) + Flat(Emit(rest, []))
    ensures result + FlushMessages(pending) + Flat(Emit(rest, [])) == result + FlushMessages(pending)
  {
    EmitNothing(pending);
    EmitNothing([]);
    Assoc(result, FlushMessages(pending), []);
  }

  method ResolveMediaRefs(messages: seq<Message>, store: Option<Store>, start: int, mode: InlineMode)
    returns (result: seq<Message>)
    ensures store.None? ==> result == messages
    ensures store.Some? ==>
      result == Flat(Emit(Job(messages, Clamp(start, |messages|), mode, store.value).Items(0), []))
  {
    if store.None? {
      return messages;
    }
    var turnStart := Clamp(start, |messages|);
    ghost var job := Job(messages, turnStart, mode, store.value);
    ghost var all := job.Items(0);
    var pending: seq<string> := [];
    result := [];
    assert all[0..] == all;
    for k := 0 to |messages|
      invariant result + Flat(Emit(all[k..], pending)) == Flat(Emit(all, []))
      invariant k == |messages| ==> pending == []
    {
      ghost var before, waiting := result, pending;
      var add;
      add, pending := EmitOne(messages[k], k >= turnStart, mode, store.value, pending);
      result := result + add;
      ItemsRound(job, k, before, waiting, add, pending);
      if k == |messages| - 1 && |pending| > 0 {
        LastFlush(result, all[k + 1..], pending);
        result := result + [FollowupMessage(pending)];
        pending := [];
      }
    }
    LastFlush(result, all[|messages|..], []);
  }

  /** The round of the loop at `k`. */
  lemma ItemsRound(job: Job, k: nat, result: seq<Message>, pending: seq<string>, add: seq<Message>, p: seq<string>)
    requires k < |job.messages|
    requires var x := job.ItemAt(k);
      && add == (if x.msg.role == Tool then [] else FlushMessages(pending)) + [x.msg]
      && p == (if x.msg.role == Tool then pending else []) + x.images
    ensures var all := job.Items(0);
      && result + Flat(Emit(all[k..], pending)) == result + add + Flat(Emit(all[k + 1..], p))
      && (k == |job.messages| - 1 ==> all[k + 1..] == [])
  {
    var all := job.Items(0);
    JobItems(job);
    assert all[k] in all && all[k..][0] == all[k] == job.ItemAt(k);
    DropDrop(all, k, 1);
    LoopRound(result, all[k..], pending, add, p);
  }

  /** Flushes what is pending when `m` ends a block, then resolves `m`. */
  method EmitOne(m: Message, current: bool, mode: InlineMode, store: Store, before: seq<string>)
    returns (add: seq<Message>, pending: seq<string>)
    ensures add == (if m.role == Tool then [] else FlushMessages(before)) + [Resolved(m, current, mode, store)]
    ensures pending == (if m.role == Tool then before else []) + Images(m, current, mode, store)
  {
    add, pending := [], before;
    if m.role != Tool && |pending| > 0 {
      add, pending := [FollowupMessage(pending)], [];
    }
    var msg := m;
    if |m.media| > 0 {
      var kept, tags;
      kept, tags, pending := CollectRefsLoop(m, current, mode, store, pending);
      msg := m.(media := kept);
      if |tags| > 0 {
        msg := msg.(content := store.inject(msg.content, tags));
      }
    }
    add := add + [msg];
  }
}
