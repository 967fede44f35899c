// Sending images: the message store attaches what the image service made ready,
// while uploads and cleanups go on.

module ImageMessages {
  import opened Common
  import opened Timeline
  import opened Documents
  import MessageStore
  import Repo = ImageRepository
  import Life = ImageLife

  /** The two parts share the images collection. */
  datatype World = World(store: MessageStore.World, life: Life.State)

  datatype Event =
    | Storing(s: MessageStore.Event)
    | Living(e: Life.Event)

  function Step(k: Life.Limits, w: World, e: Event): World {
    match e
    case Storing(s) =>
      if s.ChangeImages? then w
      else
        var store := MessageStore.Step(w.store, s);
        World(store, w.life.(db := w.life.db.(images := store.db.images)))
    case Living(e) =>
      if e.Attach? then w
      else
        var life := Life.Step(k, w.life, e);
        World(MessageStore.Step(w.store, MessageStore.ChangeImages(life.db.images)), life)
  }

  function Run(k: Life.Limits, w: World, events: seq<Event>): World {
    if events == [] then w else Step(k, Run(k, w, events[..|events| - 1]), events[|events| - 1])
  }

  // ----- Which message an image belongs to --------------------------------------------

  /** A message that shows an image. */
  predicate Shows(m: ItemDocument, image: string) {
    m.message.content.contentType == IMAGE && m.message.content.imageID == image
  }

  predicate BelongsTo(d: ImageDocument, m: ItemDocument) {
    m.chatID == d.chatID && m.message.senderID == d.uploadedBy
  }

  ghost predicate Attachments(timeline: map<string, ItemDocument>, images: map<string, ImageDocument>) {
    && (forall i :: i in images && images[i].status == Attached ==>
          && images[i].messageID.Some? && images[i].messageID.value in timeline
          && Shows(timeline[images[i].messageID.value], i) && BelongsTo(images[i], timeline[images[i].messageID.value]))
    && (forall m :: m in timeline && timeline[m].message.content.contentType == IMAGE ==>
          && timeline[m].message.content.imageID in images
          && images[timeline[m].message.content.imageID].status == Attached
          && images[timeline[m].message.content.imageID].messageID == Some(m))
  }

  /** A new message, with its image attached if it shows one. */
  lemma InsertKeepsAttachments(timeline: map<string, ItemDocument>, images: map<string, ImageDocument>,
                               images': map<string, ImageDocument>, m: ItemDocument)
    requires Attachments(timeline, images) && m.id !in timeline
    requires if m.message.content.contentType != IMAGE then images' == images
             else
               var i := m.message.content.imageID;
               && i in images && images[i].status == Ready && BelongsTo(images[i], m)
               && images' == images[i := images[i].(status := Attached, messageID := Some(m.id))]
    ensures Attachments(timeline[m.id := m], images')
  {
  }

  lemma TransactionKeepsAttachments(db: MessageStore.Database, p: CreateParams)
    requires Attachments(db.timeline, db.images)
    ensures var db' := MessageStore.CreateTransaction(db, p).0; Attachments(db'.timeline, db'.images)
  {
    hide Attachments;
    hide MessageStore.Advanced;
    var (db', r) := MessageStore.CreateTransaction(db, p);
    if r.Ok? {
      InsertKeepsAttachments(db.timeline, db.images, db'.images, StoredItem(NewItemDocument(p, r.value)));
    }
  }

  lemma StoreStepKeepsAttachments(store: MessageStore.World, s: MessageStore.Event)
    requires Attachments(store.db.timeline, store.db.images) && !s.ChangeImages?
    ensures var db := MessageStore.Step(store, s).db; Attachments(db.timeline, db.images)
  {
    hide Attachments;
    hide MessageStore.FindExisting;
    hide MessageStore.CreateTransaction;
    hide MessageStore.CreatedAnswer;
    if (s.Advance? || s.CommitUnseen?) && s.call in store.calls {
      TransactionKeepsAttachments(store.db, store.calls[s.call].params);
      AbortChangesNothing(store.db, store.calls[s.call].params);
    }
  }

  lemma AbortChangesNothing(db: MessageStore.Database, p: CreateParams)
    ensures MessageStore.CreateTransaction(db, p).1.Err? ==> MessageStore.CreateTransaction(db, p).0 == db
  {
  }

  /** Images evolve on their own without touching attached ones. */
  lemma EvolutionKeepsAttachments(timeline: map<string, ItemDocument>, images: map<string, ImageDocument>, images': map<string, ImageDocument>)
    requires Attachments(timeline, images)
    requires forall i :: i in images ==> i in images' && (images[i].status == Attached ==> images'[i] == images[i])
    requires forall i :: i in images' && images'[i].status == Attached ==> i in images && images'[i] == images[i]
    ensures Attachments(timeline, images')
  {
  }

  lemma LifeStepAttachesNothing(k: Life.Limits, s: Life.State, e: Life.Event, id: string)
    requires !e.Attach?
    ensures
      var images' := Life.Step(k, s, e).db.images;
      && (id in s.db.images ==> id in images' && (s.db.images[id].status == Attached ==> images'[id] == s.db.images[id]))
      && (id in images' && images'[id].status == Attached ==> id in s.db.images && images'[id] == s.db.images[id])
  {
  }

  /** What a store step does to the images is nothing, or an attachment. */
  lemma StoreStepAttaches(store: MessageStore.World, s: MessageStore.Event)
    requires !s.ChangeImages?
    ensures
      var images' := MessageStore.Step(store, s).db.images;
      images' == store.db.images || exists p :: MessageStore.AttachedImages(store.db.images, p) == Some(images')
  {
    hide MessageStore.FindExisting;
    hide MessageStore.CreatedAnswer;
    hide MessageStore.AttachedImages;
    if (s.Advance? || s.CommitUnseen?) && s.call in store.calls {
      assert MessageStore.CreateTransaction(store.db, store.calls[s.call].params).1.Ok? ==>
          MessageStore.AttachedImages(store.db.images, store.calls[s.call].params)
          == Some(MessageStore.CreateTransaction(store.db, store.calls[s.call].params).0.images);
    }
  }

  ghost predicate Inv(k: Life.Limits, w: World) {
    && w.life.db.images == w.store.db.images
    && Life.Inv(k, w.life)
    && Attachments(w.store.db.timeline, w.store.db.images)
  }

  lemma StepKeepsInv(k: Life.Limits, w: World, e: Event)
    requires Inv(k, w)
    ensures Inv(k, Step(k, w, e))
  {
    hide Life.Inv;
    hide Life.Step;
    hide Attachments;
    match e
    case Storing(s) =>
      if !s.ChangeImages? {
        hide MessageStore.Step;
        StoreStepKeepsAttachments(w.store, s);
        StoreStepAttaches(w.store, s);
        var images' := MessageStore.Step(w.store, s).db.images;
        if images' != w.store.db.images {
          var p :| MessageStore.AttachedImages(w.store.db.images, p) == Some(images');
          Life.AttachKeepsInv(k, w.life, p);
          AttachStep(k, w.life, p, images');
        } else {
          assert w.life.(db := w.life.db.(images := images')) == w.life;
        }
      }
    case Living(e) =>
      if !e.Attach? {
        Life.StepKeepsInv(k, w.life, e);
        var images' := Life.Step(k, w.life, e).db.images;
        forall i
          ensures i in w.life.db.images ==> i in images' && (w.life.db.images[i].status == Attached ==> images'[i] == w.life.db.images[i])
          ensures i in images' && images'[i].status == Attached ==> i in w.life.db.images && images'[i] == w.life.db.images[i]
        {
          LifeStepAttachesNothing(k, w.life, e, i);
        }
        EvolutionKeepsAttachments(w.store.db.timeline, w.store.db.images, images');
      }
  }

  lemma AttachStep(k: Life.Limits, s: Life.State, p: CreateParams, images': map<string, ImageDocument>)
    requires MessageStore.AttachedImages(s.db.images, p) == Some(images')
    ensures Life.Step(k, s, Life.Attach(p)) == s.(db := s.db.(images := images'))
  {
  }

  lemma {:induction false} RunKeepsInv(k: Life.Limits, w: World, events: seq<Event>)
    requires Inv(k, w)
    ensures Inv(k, Run(k, w, events))
  {
    hide Inv;
    hide Step;
    if events != [] {
      RunKeepsInv(k, w, events[..|events| - 1]);
      StepKeepsInv(k, Run(k, w, events[..|events| - 1]), events[|events| - 1]);
    }
  }

  // ----- Main results ---------------------------------------------------------------------

  /** No images yet, and so no messages that show one. */
  ghost predicate Initial(w: World) {
    && w.life == Life.Start() && w.store.db.images == map[]
    && forall m :: m in w.store.db.timeline ==> w.store.db.timeline[m].message.content.contentType != IMAGE
  }

  ghost predicate OnlyIn(timeline: map<string, ItemDocument>, image: string, m: string) {
    m in timeline && Shows(timeline[m], image) && forall n :: n in timeline && Shows(timeline[n], image) ==> n == m
  }

  /** The image's bytes, as recorded, in storage and never asked to be deleted. */
  predicate Stored(w: World, image: string) {
    && image in w.life.db.images
    && var key := Repo.ObjectKey(image);
    && key in w.life.objects && w.life.objects[key].checksum == w.life.db.images[image].checksum
    && key !in w.life.deletes
  }

  lemma InitialInv(k: Life.Limits, w: World)
    requires Initial(w)
    ensures Inv(k, w)
  {
  }

  /** Whatever uploads, sends and cleanups interleave: an attached image is shown by
      exactly one message, from its uploader and in its chat, and every image a
      message shows is attached and has its bytes, for good. */
  lemma AttachedImagesStayReadable(k: Life.Limits, w: World, events: seq<Event>)
    requires Initial(w)
    ensures
      var end := Run(k, w, events);
      && (forall i :: i in end.store.db.images && end.store.db.images[i].status == Attached ==>
            && end.store.db.images[i].messageID.Some?
            && OnlyIn(end.store.db.timeline, i, end.store.db.images[i].messageID.value)
            && BelongsTo(end.store.db.images[i], end.store.db.timeline[end.store.db.images[i].messageID.value]))
      && (forall m :: m in end.store.db.timeline && end.store.db.timeline[m].message.content.contentType == IMAGE ==>
            && end.store.db.timeline[m].message.content.imageID in end.store.db.images
            && end.store.db.images[end.store.db.timeline[m].message.content.imageID].status == Attached
            && Stored(end, end.store.db.timeline[m].message.content.imageID))
  {
    InitialInv(k, w);
    RunKeepsInv(k, w, events);
    var end := Run(k, w, events);
    forall i | i in end.store.db.images && end.store.db.images[i].status == Attached ensures Stored(end, i) {
      assert Life.ImageHolds(k, end.life.objects, end.life.deletes, i, end.life.db.images[i]);
    }
  }

  // ----- Repetitions that lost the race ---------------------------------------------------

  /** The stored message that a request asks for again. */
  predicate Wins(db: MessageStore.Database, p: CreateParams, existing: string) {
    && existing in db.timeline && MessageStore.MessageKey(db.timeline[existing].message) == MessageStore.MessageKey(p.message)
    && db.timeline[existing].chatID == p.chatID && db.timeline[existing].message.content == p.message.content
  }

  /** An unfinished call asking again for a message that is already stored. */
  predicate Repeats(store: MessageStore.World, id: nat, existing: string) {
    id in store.calls && !store.calls[id].stage.Done? && Wins(store.db, store.calls[id].params, existing)
  }

  function Answer(d: ItemDocument): MessageStore.Stage {
    MessageStore.Done(Ok(MessageStore.CreateResult(AsItem(d), false)))
  }

  const EXHAUSTED := MessageStore.Done(Err(MessageStore.NotPersisted(MessageStore.SequenceExhausted)))

  lemma AttachedImageIsUnavailable(timeline: map<string, ItemDocument>, images: map<string, ImageDocument>, p: CreateParams, existing: string)
    requires Attachments(timeline, images) && existing in timeline
    requires timeline[existing].message.content == p.message.content && p.message.content.contentType == IMAGE
    ensures MessageStore.AttachedImages(images, p) == None
  {
  }

  lemma LookupFinds(db: MessageStore.Database, p: CreateParams, existing: string)
    requires MessageStore.Indexed(db.timeline, db.bySequence, db.byClientMessage) && MessageStore.Readable(db.timeline, db.chats)
    requires Wins(db, p, existing)
    ensures MessageStore.FindExisting(db, p) == Some(Ok(AsItem(db.timeline[existing])))
    ensures MessageStore.Resolve(Ok(AsItem(db.timeline[existing])), p) == Ok(MessageStore.CreateResult(AsItem(db.timeline[existing]), false))
  {
    hide ToDomain;
    hide ValidContent;
  }

  /** The next database step of a repetition, at any of its stages. */
  lemma RepetitionAdvances(store: MessageStore.World, p: CreateParams, existing: string, stage: MessageStore.Stage)
    requires MessageStore.Inv(store) && Attachments(store.db.timeline, store.db.images)
    requires Wins(store.db, p, existing) && !stage.Done?
    ensures p.chatID in store.db.chats
    ensures
      MessageStore.NextStage(store.db, p, stage)
      == if !stage.Transact? then Answer(store.db.timeline[existing])
         else if p.message.content.contentType == IMAGE then MessageStore.Recheck(MessageStore.ImageUnavailable)
         else if store.db.chats[p.chatID].lastSequence == MAX_SEQUENCE then EXHAUSTED
         else MessageStore.Recheck(MessageStore.DuplicateKey)
  {
    var db := store.db;
    MessageStore.ExistingItemFacts(db, store.eventOf, existing);
    hide Attachments;
    if stage.Transact? {
      if p.message.content.contentType == IMAGE {
        AttachedImageIsUnavailable(db.timeline, db.images, p, existing);
      }
      hide MessageStore.Inv;
      MessageStore.LoserDefers(db, p, p.chatID);
    } else {
      LookupFinds(db, p, existing);
      hide MessageStore.Inv;
      hide MessageStore.FindExisting;
      hide MessageStore.Resolve;
    }
  }

  ghost predicate BothInv(k: Life.Limits, w: World) {
    Inv(k, w) && MessageStore.Inv(w.store)
  }

  lemma StepKeepsBoth(k: Life.Limits, w: World, e: Event)
    requires BothInv(k, w)
    ensures BothInv(k, Step(k, w, e))
  {
    StepKeepsInv(k, w, e);
    hide Inv;
    hide MessageStore.Inv;
    hide MessageStore.Step;
    hide Life.Step;
    match e
    case Storing(s) => MessageStore.StepKeepsInv(w.store, s);
    case Living(e) => MessageStore.StepKeepsInv(w.store, MessageStore.ChangeImages(Life.Step(k, w.life, e).db.images));
  }

  lemma {:induction false} RunKeepsBoth(k: Life.Limits, w: World, events: seq<Event>)
    requires BothInv(k, w)
    ensures BothInv(k, Run(k, w, events))
  {
    hide BothInv;
    hide Step;
    if events != [] {
      RunKeepsBoth(k, w, events[..|events| - 1]);
      StepKeepsBoth(k, Run(k, w, events[..|events| - 1]), events[|events| - 1]);
    }
  }

  /** An image retry that loses the race for its image still ends at the winner's
      message: in every reachable state its transaction is refused by the image, not
      by the counter or an index, and the lookup that follows answers the stored item. */
  lemma LosingImageRetryMeetsTheWinner(k: Life.Limits, w: World, events: seq<Event>, id: nat, existing: string)
    requires Initial(w) && MessageStore.Initial(w.store)
    requires Repeats(Run(k, w, events).store, id, existing)
    requires Run(k, w, events).store.calls[id].params.message.content.contentType == IMAGE
    ensures
      var store := Run(k, w, events).store;
      var p, d := store.calls[id].params, store.db.timeline[existing];
      && MessageStore.NextStage(store.db, p, MessageStore.Transact) == MessageStore.Recheck(MessageStore.ImageUnavailable)
      && MessageStore.NextStage(store.db, p, MessageStore.Recheck(MessageStore.ImageUnavailable)) == Answer(d)
  {
    InitialBoth(k, w);
    RunKeepsBoth(k, w, events);
    var now := Run(k, w, events);
    hide Run;
    hide Life.Inv;
    hide MessageStore.Inv;
    hide Attachments;
    RepetitionAdvances(now.store, now.store.calls[id].params, existing, MessageStore.Transact);
    RepetitionAdvances(now.store, now.store.calls[id].params, existing, MessageStore.Recheck(MessageStore.ImageUnavailable));
  }

  /** How a repetition stands: unfinished and still a repetition, or finished with the
      stored item, a failure, or, being a text, the exhausted counter. */
  ghost predicate OnTheWay(store: MessageStore.World, id: nat, p: CreateParams, existing: string, d: ItemDocument) {
    && existing in store.db.timeline && store.db.timeline[existing] == d
    && id in store.calls && store.calls[id].params == p
    && var stage := store.calls[id].stage;
       if stage.Done?
       then stage == Answer(d) || stage == MessageStore.Done(Err(MessageStore.Unavailable))
            || (stage == EXHAUSTED && d.message.content.contentType != IMAGE)
       else Repeats(store, id, existing)
  }

  lemma WayGoesOn(store: MessageStore.World, store': MessageStore.World, id: nat, p: CreateParams, existing: string, d: ItemDocument,
                  next: MessageStore.Stage)
    requires OnTheWay(store, id, p, existing, d)
    requires existing in store'.db.timeline && store'.db.timeline[existing] == d
    requires id in store'.calls && store'.calls[id].params == p
    requires
      var stage, stage' := store.calls[id].stage, store'.calls[id].stage;
      && (stage' == stage || stage' == next || (stage' == MessageStore.Done(Err(MessageStore.Unavailable)) && !stage.Done?))
      && (stage.Done? ==> next == stage)
      && (!stage.Done? && next.Done? ==> next == Answer(d) || (next == EXHAUSTED && d.message.content.contentType != IMAGE))
    ensures OnTheWay(store', id, p, existing, d)
  {
    hide AsItem;
    hide MessageStore.MessageKey;
  }

  lemma DoneStays(db: MessageStore.Database, p: CreateParams, stage: MessageStore.Stage)
    requires stage.Done?
    ensures MessageStore.NextStage(db, p, stage) == stage
  {
  }

  lemma NextOfRepetition(store: MessageStore.World, id: nat, p: CreateParams, existing: string, d: ItemDocument)
    requires MessageStore.Inv(store) && Attachments(store.db.timeline, store.db.images)
    requires OnTheWay(store, id, p, existing, d)
    ensures
      var stage, next := store.calls[id].stage, MessageStore.NextStage(store.db, p, store.calls[id].stage);
      && (stage.Done? ==> next == stage)
      && (!stage.Done? && next.Done? ==> next == Answer(d) || (next == EXHAUSTED && d.message.content.contentType != IMAGE))
  {
    hide MessageStore.Inv;
    hide MessageStore.NextStage;
    hide Attachments;
    hide AsItem;
    var stage := store.calls[id].stage;
    if stage.Done? {
      DoneStays(store.db, p, stage);
    } else {
      RepetitionAdvances(store, p, existing, stage);
    }
  }

  lemma StoreStepKeepsWay(store: MessageStore.World, s: MessageStore.Event, id: nat, p: CreateParams, existing: string, d: ItemDocument)
    requires MessageStore.Inv(store) && Attachments(store.db.timeline, store.db.images)
    requires OnTheWay(store, id, p, existing, d)
    ensures OnTheWay(MessageStore.Step(store, s), id, p, existing, d)
  {
    hide MessageStore.Inv;
    hide MessageStore.Step;
    hide MessageStore.NextStage;
    hide Attachments;
    hide Wins;
    hide AsItem;
    NextOfRepetition(store, id, p, existing, d);
    MessageStore.StepOnCall(store, s, id);
    WayGoesOn(store, MessageStore.Step(store, s), id, p, existing, d, MessageStore.NextStage(store.db, p, store.calls[id].stage));
  }

  lemma {:induction false} RepetitionGoesOn(k: Life.Limits, w: World, events: seq<Event>, id: nat, p: CreateParams, existing: string, d: ItemDocument)
    requires BothInv(k, w) && OnTheWay(w.store, id, p, existing, d)
    ensures OnTheWay(Run(k, w, events).store, id, p, existing, d)
  {
    hide OnTheWay;
    hide Step;
    if events != [] {
      var before := Run(k, w, events[..|events| - 1]);
      RepetitionGoesOn(k, w, events[..|events| - 1], id, p, existing, d);
      RunKeepsBoth(k, w, events[..|events| - 1]);
      StepKeepsWay(k, before, events[|events| - 1], id, p, existing, d);
    }
  }

  lemma StepKeepsWay(k: Life.Limits, w: World, e: Event, id: nat, p: CreateParams, existing: string, d: ItemDocument)
    requires BothInv(k, w) && OnTheWay(w.store, id, p, existing, d)
    ensures OnTheWay(Step(k, w, e).store, id, p, existing, d)
  {
    hide OnTheWay;
    hide Life.Inv;
    hide Life.Step;
    hide MessageStore.Inv;
    hide MessageStore.Step;
    hide Attachments;
    match e
    case Storing(s) => if !s.ChangeImages? { StoreStepKeepsWay(w.store, s, id, p, existing, d); }
    case Living(e) =>
      if !e.Attach? { StoreStepKeepsWay(w.store, MessageStore.ChangeImages(Life.Step(k, w.life, e).db.images), id, p, existing, d); }
  }

  /** However a repetition goes on, and whatever else happens, it ends with the
      stored item, unless it fails or, being a text, meets an exhausted counter. */
  lemma RepetitionAnswersTheWinner(k: Life.Limits, w: World, before: seq<Event>, after: seq<Event>, id: nat, existing: string)
    requires Initial(w) && MessageStore.Initial(w.store)
    requires Repeats(Run(k, w, before).store, id, existing)
    ensures
      var now, later := Run(k, w, before).store, Run(k, Run(k, w, before), after).store;
      OnTheWay(later, id, now.calls[id].params, existing, now.db.timeline[existing])
  {
    InitialBoth(k, w);
    RunKeepsBoth(k, w, before);
    hide BothInv;
    hide Run;
    hide Wins;
    var now := Run(k, w, before);
    StartsOnTheWay(now.store, id, existing);
    hide Repeats;
    hide OnTheWay;
    RepetitionGoesOn(k, now, after, id, now.store.calls[id].params, existing, now.store.db.timeline[existing]);
  }

  lemma StartsOnTheWay(store: MessageStore.World, id: nat, existing: string)
    requires Repeats(store, id, existing)
    ensures OnTheWay(store, id, store.calls[id].params, existing, store.db.timeline[existing])
  {
  }

  lemma InitialBoth(k: Life.Limits, w: World)
    requires Initial(w) && MessageStore.Initial(w.store)
    ensures BothInv(k, w)
  {
    InitialInv(k, w);
    NoCallsHold(w.store);
    hide Inv;
    hide Initial;
    hide MessageStore.Consistent;
    hide MessageStore.CallsHold;
  }

  lemma NoCallsHold(store: MessageStore.World)
    requires MessageStore.Initial(store)
    ensures MessageStore.CallsHold(store)
  {
    hide MessageStore.Consistent;
    hide MessageStore.TrueAnswer;
  }
}
