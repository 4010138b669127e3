/** The conversation store and the HTTP handlers over it: list, create,
    delete, rename and fetch conversations, and the chat turn that writes
    the user message, the inferred title, the bot message and the activity
    timestamps. The database is a map of conversations and a sequence of
    messages in insertion order; every `Date.now()` is one tick of `clock`. */
module Store {
  import opened Wrappers
  import opened Text
  import opened Schema
  import opened Routing
  import opened Adapters
  import opened Pipeline

  const TitleRequired: string := "Title is required"
  const ConversationNotFound: string := "Conversation not found"
  const ConversationDeleted: string := "Conversation deleted successfully"

  /** One row of the conversation list. */
  datatype Summary = Summary(id: Id, title: string, lastMessage: Option<Message>, timestamp: Time)

  /** A conversation's fields together with its messages. */
  datatype Details = Details(id: Id, title: string, timestamp: Time, messages: seq<Message>)

  /** The list order: most recent activity first. */
  ghost predicate NewestFirst(s: seq<Summary>)
  {
    forall i, j :: 0 <= i < j < |s| ==> s[i].timestamp >= s[j].timestamp
  }

  /** Where a row with timestamp `t` goes in a newest-first list: after every
      strictly newer row and before every row that is not newer. */
  function RecencySlot(s: seq<Summary>, t: Time): (p: nat)
    ensures p <= |s|
    ensures forall i :: 0 <= i < p ==> s[i].timestamp > t
    ensures NewestFirst(s) ==> forall i :: p <= i < |s| ==> s[i].timestamp <= t
  {
    if s == [] || s[0].timestamp <= t then 0 else 1 + RecencySlot(s[1..], t)
  }

  /** `s` with `row` inserted at index `p`. */
  function InsertAt(s: seq<Summary>, p: nat, row: Summary): (r: seq<Summary>)
    requires p <= |s|
    ensures |r| == |s| + 1 && r[p] == row
    ensures forall k :: 0 <= k < p ==> r[k] == s[k]
    ensures forall k :: p < k < |r| ==> r[k] == s[k - 1]
  {
    s[..p] + [row] + s[p..]
  }

  /** Inserting keeps every old row and adds exactly the new one. */
  lemma InsertAtMembers(s: seq<Summary>, p: nat, row: Summary)
    requires p <= |s|
    ensures forall x :: x in InsertAt(s, p, row) <==> x in s || x == row
  {
    var r := InsertAt(s, p, row);
    forall x | x in s ensures x in r {
      var k :| 0 <= k < |s| && s[k] == x;
      if k < p { assert r[k] == x; } else { assert r[k + 1] == x; }
    }
  }

  /** Inserting a row with a new id keeps the ids distinct. */
  lemma InsertAtDistinct(s: seq<Summary>, p: nat, row: Summary)
    requires p <= |s|
    requires forall j, k :: 0 <= j < k < |s| ==> s[j].id != s[k].id
    requires forall k :: 0 <= k < |s| ==> s[k].id != row.id
    ensures var r := InsertAt(s, p, row);
            forall j, k :: 0 <= j < k < |r| ==> r[j].id != r[k].id
  {
  }

  /** Inserting at the recency slot keeps the list newest first. */
  lemma InsertAtSlotNewestFirst(s: seq<Summary>, row: Summary)
    requires NewestFirst(s)
    ensures NewestFirst(InsertAt(s, RecencySlot(s, row.timestamp), row))
  {
  }

  /** The store invariant: messages in chronological order, every id,
      reference and time below the counters, and `hasImage` exactly when an
      image URL is stored. */
  ghost predicate Consistent(msgs: seq<Message>, convs: map<Id, Conversation>, clock: Time, nextMsg: Id, nextConv: Id)
  {
    && Chronological(msgs)
    && (forall m :: m in msgs ==>
          && m.id < nextMsg && m.timestamp <= clock && m.conversationId < nextConv
          && (m.hasImage <==> m.imageUrl.Some?))
    && (forall id :: id in convs ==> id < nextConv && convs[id].timestamp <= clock)
  }

  /** Saving a message stamped with the next id and the next tick keeps the
      store consistent. */
  lemma SaveConsistent(msgs: seq<Message>, convs: map<Id, Conversation>, clock: Time, nextMsg: Id, nextConv: Id, m: Message)
    requires Consistent(msgs, convs, clock, nextMsg, nextConv)
    requires m.id == nextMsg && m.timestamp == clock + 1 && (m.hasImage <==> m.imageUrl.Some?)
    ensures Consistent(msgs + [m], convs, clock + 1, nextMsg + 1,
                       if m.conversationId < nextConv then nextConv else m.conversationId + 1)
  {
    AppendChronological(msgs, m);
  }

  /** After a message newer than every stored one is saved, its
      conversation's history read back without it is the history before. */
  lemma HistoryAfterSave(msgs: seq<Message>, m: Message)
    requires forall x :: x in msgs ==> x.id < m.id
    ensures Filter(msgs + [m], InConversation(m.conversationId)) == Filter(msgs, InConversation(m.conversationId)) + [m]
    ensures Prior(Filter(msgs + [m], InConversation(m.conversationId)), m.id) == Filter(msgs, InConversation(m.conversationId))
  {
    var k := InConversation(m.conversationId);
    FilterSnoc(msgs, m, k);
    FilterOlder(msgs, k, m);
    PriorOfTurn(Filter(msgs, k), m);
  }

  /** Changing a conversation's title keeps the store consistent. */
  lemma RetitleConsistent(msgs: seq<Message>, convs: map<Id, Conversation>, clock: Time, nextMsg: Id, nextConv: Id,
                          id: Id, title: string)
    requires Consistent(msgs, convs, clock, nextMsg, nextConv) && id in convs
    ensures Consistent(msgs, convs[id := convs[id].(title := title)], clock, nextMsg, nextConv)
  {
  }

  function Max(a: nat, b: nat): nat
  {
    if a < b then b else a
  }

  class ChatStore {
    /** The conversation collection, by id. */
    var convs: map<Id, Conversation>
    /** The message collection, in insertion order. */
    var msgs: seq<Message>
    /** The last clock reading handed out. */
    var clock: Time
    /** The next message id to hand out. */
    var nextMsg: Id
    /** No conversation id at or above this one is in use. */
    var nextConv: Id

    ghost predicate Valid()
      reads this
    {
      Consistent(msgs, convs, clock, nextMsg, nextConv)
    }

    constructor ()
      ensures Valid()
      ensures convs == map[] && msgs == []
    {
      convs, msgs := map[], [];
      clock, nextMsg, nextConv := 0, 0, 0;
    }

    /** `Message.find({ conversationId: cid }).sort({ timestamp: 1 })`. */
    function MessagesOf(cid: Id): seq<Message>
      reads this`msgs
    {
      Filter(msgs, InConversation(cid))
    }

    /** A conversation's messages are exactly the stored messages that
        reference it, and come in ascending timestamp order. */
    lemma MessagesOfIsQuery(cid: Id)
      requires Valid()
      ensures Chronological(MessagesOf(cid))
      ensures forall m :: m in MessagesOf(cid) <==> m in msgs && m.conversationId == cid
    {
      FilterMembers(msgs, InConversation(cid));
      FilterChronological(msgs, InConversation(cid));
    }

    function SummaryOf(id: Id): Summary
      requires id in convs
      reads this
    {
      Summary(id, convs[id].title, NewestIn(msgs, id), convs[id].timestamp)
    }

    /** `GET /api/conversations`: every conversation once, most recent
        activity first, each with its title, timestamp and latest message. */
    method List() returns (list: seq<Summary>)
      requires Valid()
      ensures |list| == |convs.Keys|
      ensures forall x :: x in list ==> x.id in convs && x == SummaryOf(x.id)
      ensures forall id :: id in convs ==> SummaryOf(id) in list
      ensures forall j, k :: 0 <= j < k < |list| ==> list[j].id != list[k].id
      ensures NewestFirst(list)
    {
      list := [];
      var remaining := convs.Keys;
      while remaining != {}
        invariant remaining <= convs.Keys
        invariant |list| + |remaining| == |convs.Keys|
        invariant forall x :: x in list ==> x.id in convs && x.id !in remaining && x == SummaryOf(x.id)
        invariant forall id :: id in convs && id !in remaining ==> SummaryOf(id) in list
        invariant forall j, k :: 0 <= j < k < |list| ==> list[j].id != list[k].id
        invariant NewestFirst(list)
        decreases remaining
      {
        var id :| id in remaining;
        var row := Summary(id, convs[id].title, NewestIn(msgs, id), convs[id].timestamp);
        var p := RecencySlot(list, row.timestamp);
        InsertAtMembers(list, p, row);
        InsertAtDistinct(list, p, row);
        InsertAtSlotNewestFirst(list, row);
        list := InsertAt(list, p, row);
        remaining := remaining - {id};
      }
    }

    /** `POST /api/conversations`: a new conversation titled `New Chat`, with
        a fresh id that no stored message references. */
    method Create() returns (id: Id)
      requires Valid()
      modifies this`convs, this`clock, this`nextConv
      ensures Valid()
      ensures id !in old(convs)
      ensures convs == old(convs)[id := Conversation(DefaultTitle, old(clock) + 1)]
      ensures MessagesOf(id) == []
      ensures clock == old(clock) + 1 && nextConv == old(nextConv) + 1
    {
      id := nextConv;
      nextConv := nextConv + 1;
      clock := clock + 1;
      convs := convs[id := Conversation(DefaultTitle, clock)];
      FilterKeepsNone(msgs, InConversation(id));
    }

    /** `DELETE /api/conversations/:id`: the conversation's messages go first,
        then its record; the answer is success even when nothing was there. */
    method Delete(id: Id) returns (r: Response<string>)
      requires Valid()
      modifies this`convs, this`msgs
      ensures Valid()
      ensures r == Ok(ConversationDeleted)
      ensures msgs == Filter(old(msgs), OutsideConversation(id))
      ensures forall m :: m in msgs <==> m in old(msgs) && m.conversationId != id
      ensures MessagesOf(id) == []
      ensures convs == old(convs) - {id}
    {
      FilterMembers(msgs, OutsideConversation(id));
      FilterChronological(msgs, OutsideConversation(id));
      msgs := Filter(msgs, OutsideConversation(id));
      convs := convs - {id};
      FilterKeepsNone(msgs, InConversation(id));
      r := Ok(ConversationDeleted);
    }

    /** `PATCH /api/conversations/:id`: a missing or blank title is refused
        before the lookup, an unknown id is refused next, and otherwise the
        trimmed title is stored and the updated record returned. */
    method Rename(id: Id, title: Option<string>) returns (r: Response<Conversation>)
      requires Valid()
      modifies this`convs
      ensures Valid()
      ensures title.None? || Trim(title.value) == "" ==>
                r == BadRequest(TitleRequired) && convs == old(convs)
      ensures title.Some? && Trim(title.value) != "" && id !in old(convs) ==>
                r == NotFound(ConversationNotFound) && convs == old(convs)
      ensures title.Some? && Trim(title.value) != "" && id in old(convs) ==>
                && convs == old(convs)[id := old(convs)[id].(title := Trim(title.value))]
                && r == Ok(convs[id])
    {
      if title.None? || Trim(title.value) == "" {
        return BadRequest(TitleRequired);
      }
      if id !in convs {
        return NotFound(ConversationNotFound);
      }
      RetitleConsistent(msgs, convs, clock, nextMsg, nextConv, id, Trim(title.value));
      convs := convs[id := convs[id].(title := Trim(title.value))];
      r := Ok(convs[id]);
    }

    /** `GET /api/conversations/:id`: the conversation's fields and its
        messages in ascending timestamp order, or 404. */
    method Get(id: Id) returns (r: Response<Details>)
      requires Valid()
      ensures id !in convs <==> r == NotFound(ConversationNotFound)
      ensures id in convs ==>
                r.Ok? && r.body.id == id && r.body.title == convs[id].title && r.body.timestamp == convs[id].timestamp
      ensures r.Ok? ==> Chronological(r.body.messages)
      ensures r.Ok? ==> forall m :: m in r.body.messages <==> m in msgs && m.conversationId == id
    {
      if id !in convs {
        return NotFound(ConversationNotFound);
      }
      MessagesOfIsQuery(id);
      r := Ok(Details(id, convs[id].title, convs[id].timestamp, MessagesOf(id)));
    }

    /** `new Message(fields).save()`: the message gets the next id and the
        current time, and `hasImage` says whether it carries an image URL. */
    method SaveMessage(conversationId: Id, sender: Sender, text: string, imageUrl: Option<string>)
      returns (m: Message)
      requires Valid()
      modifies this`msgs, this`clock, this`nextMsg, this`nextConv
      ensures Valid()
      ensures m == Message(old(nextMsg), conversationId, sender, text, imageUrl.Some?, imageUrl, old(clock) + 1)
      ensures msgs == old(msgs) + [m]
      ensures clock == old(clock) + 1 && nextMsg == old(nextMsg) + 1
      ensures nextConv == if conversationId < old(nextConv) then old(nextConv) else conversationId + 1
    {
      m := Message(nextMsg, conversationId, sender, text, imageUrl.Some?, imageUrl, clock + 1);
      SaveConsistent(msgs, convs, clock, nextMsg, nextConv, m);
      msgs := msgs + [m];
      clock := clock + 1;
      nextMsg := nextMsg + 1;
      if nextConv <= conversationId {
        nextConv := conversationId + 1;
      }
    }

    /** `conversation.title = title; conversation.timestamp = Date.now();
        conversation.save()`. */
    method Refresh(cid: Id, title: string)
      requires Valid() && cid in convs
      modifies this`convs, this`clock
      ensures Valid()
      ensures convs == old(convs)[cid := Conversation(title, old(clock) + 1)]
      ensures clock == old(clock) + 1
    {
      clock := clock + 1;
      convs := convs[cid := Conversation(title, clock)];
    }

    /** The title a conversation has once a user message with `message` is
        saved into it: inferred when that message is its only one (the count
        includes the new message), unchanged otherwise. */
    ghost function TitleAfterSave(cid: Id, message: string): string
      requires cid in convs
      reads this
    {
      if |MessagesOf(cid)| + 1 == 1 then InferTitle(message) else convs[cid].title
    }

    /** The first half of a turn: the user message is saved, and when the
        conversation has a record its title is inferred on the first message
        and its activity timestamp refreshed. `previous` is the
        conversation's history as it is read back afterwards; without the
        message just saved it is the history the turn started from. */
    method BeginTurn(req: ChatRequest) returns (user: Message, previous: seq<Message>)
      requires Valid() && req.conversationId.Some?
      modifies this`msgs, this`clock, this`nextMsg, this`nextConv, this`convs
      ensures Valid()
      ensures user == UserMessage(req, old(nextMsg), old(clock) + 1)
      ensures msgs == old(msgs) + [user]
      ensures previous == MessagesOf(req.conversationId.value)
      ensures Prior(previous, user.id) == old(MessagesOf(req.conversationId.value))
      ensures nextMsg == old(nextMsg) + 1
      ensures nextConv == Max(old(nextConv), req.conversationId.value + 1)
      ensures req.conversationId.value in old(convs) ==>
                && clock == old(clock) + 2
                && convs == old(convs)[req.conversationId.value :=
                              Conversation(old(TitleAfterSave(req.conversationId.value, req.message)), old(clock) + 2)]
      ensures req.conversationId.value !in old(convs) ==> clock == old(clock) + 1 && convs == old(convs)
    {
      var cid := req.conversationId.value;
      ghost var before := msgs;
      user := SaveMessage(cid, User, req.message, if req.image.Some? then Some(req.image.value.url) else None);
      HistoryAfterSave(before, user);
      NoteUserMessage(cid, req.message);
      previous := MessagesOf(cid);
    }

    /** Title inference and the first activity refresh: when the
        conversation has a record, its title becomes the one inferred from
        `message` if the conversation now holds exactly one message, and its
        timestamp becomes the next tick. */
    method NoteUserMessage(cid: Id, message: string)
      requires Valid()
      modifies this`convs, this`clock
      ensures Valid()
      ensures cid in old(convs) ==>
                && clock == old(clock) + 1
                && convs == old(convs)[cid := Conversation(if |MessagesOf(cid)| == 1 then InferTitle(message)
                                                           else old(convs)[cid].title, old(clock) + 1)]
      ensures cid !in old(convs) ==> clock == old(clock) && convs == old(convs)
    {
      if cid in convs {
        var messageCount := |MessagesOf(cid)|;
        Refresh(cid, if messageCount == 1 then InferTitle(message) else convs[cid].title);
      }
    }

    /** Steps 2 to 8 of a turn: the user message is saved, the title and
        timestamp are updated, the history is read back and the chosen
        provider is called. The call and the reply are the ones `Plan`
        prescribes from the history the turn started from. */
    method SendTurn(req: ChatRequest, answer: ProviderCall -> Reply)
      returns (user: Message, reply: Result<string, string>, call: Option<ProviderCall>)
      requires Valid() && req.conversationId.Some?
      modifies this`msgs, this`clock, this`nextMsg, this`nextConv, this`convs
      ensures Valid()
      ensures user == UserMessage(req, old(nextMsg), old(clock) + 1)
      ensures msgs == old(msgs) + [user]
      ensures call == CallOf(Plan(req, old(MessagesOf(req.conversationId.value))))
      ensures reply == TurnReply(Plan(req, old(MessagesOf(req.conversationId.value))), answer)
      ensures nextMsg == old(nextMsg) + 1
      ensures nextConv == Max(old(nextConv), req.conversationId.value + 1)
      ensures req.conversationId.value in old(convs) ==>
                && clock == old(clock) + 2
                && convs == old(convs)[req.conversationId.value :=
                              Conversation(old(TitleAfterSave(req.conversationId.value, req.message)), old(clock) + 2)]
      ensures req.conversationId.value !in old(convs) ==> clock == old(clock) + 1 && convs == old(convs)
    {
      // Save the user message, infer the title and refresh the timestamp.
      var previous;
      user, previous := BeginTurn(req);

      // Route, project the history, build the payload and call the provider.
      reply, call := Dispatch(req, previous, user.id, answer);
    }

    /** The second half of a successful turn: the bot message is saved and,
        when the conversation has a record, its activity timestamp is
        refreshed with the title it already has. */
    method FinishTurn(cid: Id, text: string) returns (bot: Message)
      requires Valid() && cid < nextConv
      modifies this`msgs, this`clock, this`nextMsg, this`nextConv, this`convs
      ensures Valid()
      ensures bot == BotMessage(cid, text, old(nextMsg), old(clock) + 1)
      ensures msgs == old(msgs) + [bot]
      ensures nextMsg == old(nextMsg) + 1 && nextConv == old(nextConv)
      ensures cid in old(convs) ==>
                clock == old(clock) + 2 && convs == old(convs)[cid := Conversation(old(convs)[cid].title, old(clock) + 2)]
      ensures cid !in old(convs) ==> clock == old(clock) + 1 && convs == old(convs)
    {
      bot := SaveMessage(cid, Bot, text, None);
      if cid in convs {
        Refresh(cid, convs[cid].title);
      }
    }

    /** `POST /api/chat`, one turn, in the source's order: validate, save the
        user message, infer the title on the first message and refresh the
        activity timestamp, dispatch to a provider, then save the bot message
        and refresh the timestamp again. A request naming no conversation
        writes nothing; a conversation id with no record still gets both
        messages but no metadata change; a provider failure keeps the user
        message, adds no bot message and skips the second refresh. */
    method Chat(req: ChatRequest, answer: ProviderCall -> Reply) returns (resp: Response<string>, call: Option<ProviderCall>)
      requires Valid()
      modifies this
      ensures Valid()
      ensures req.conversationId.None? ==>
                && resp == BadRequest(MissingConversation) && call == None
                && convs == old(convs) && msgs == old(msgs) && clock == old(clock)
                && nextMsg == old(nextMsg) && nextConv == old(nextConv)
      ensures req.conversationId.Some? ==>
                call == CallOf(Plan(req, old(MessagesOf(req.conversationId.value))))
      ensures req.conversationId.Some? ==>
                nextConv == Max(old(nextConv), req.conversationId.value + 1)
      ensures req.conversationId.Some? && TurnReply(Plan(req, old(MessagesOf(req.conversationId.value))), answer).Failure? ==>
                var cid := req.conversationId.value;
                var ticks := if cid in old(convs) then 1 else 0;
                && resp == ServerError(GenerationFailed, TurnReply(Plan(req, old(MessagesOf(cid))), answer).error)
                && msgs == old(msgs) + [UserMessage(req, old(nextMsg), old(clock) + 1)]
                && nextMsg == old(nextMsg) + 1
                && clock == old(clock) + 1 + ticks
                && convs == if cid in old(convs) then old(convs)[cid := Conversation(old(TitleAfterSave(cid, req.message)), old(clock) + 2)]
                            else old(convs)
      ensures req.conversationId.Some? && TurnReply(Plan(req, old(MessagesOf(req.conversationId.value))), answer).Success? ==>
                var cid := req.conversationId.value;
                var ticks := if cid in old(convs) then 1 else 0;
                var text := TurnReply(Plan(req, old(MessagesOf(cid))), answer).value;
                && resp == Ok(text)
                && msgs == old(msgs) + [UserMessage(req, old(nextMsg), old(clock) + 1),
                                        BotMessage(cid, text, old(nextMsg) + 1, old(clock) + 2 + ticks)]
                && nextMsg == old(nextMsg) + 2
                && clock == old(clock) + 2 + 2 * ticks
                && convs == if cid in old(convs) then old(convs)[cid := Conversation(old(TitleAfterSave(cid, req.message)), old(clock) + 4)]
                            else old(convs)
    {
      if req.conversationId.None? {
        return BadRequest(MissingConversation), None;
      }
      var cid := req.conversationId.value;
      var user, reply;
      user, reply, call := SendTurn(req, answer);
      match reply
      case Failure(e) =>
        resp := ServerError(GenerationFailed, e);
      case Success(text) =>
        // Save the bot message and refresh the timestamp again.
        var bot := FinishTurn(cid, text);
        resp := Ok(text);
    }
  }

  /** The end-to-end first turn: a new store, a new conversation, and the
      message `Hello` sent with no model. The conversation takes `Hello` as
      its title and holds the user message and the bot's reply. */
  method HelloScenario(answer: ProviderCall -> Reply) returns (resp: Response<string>, title: string, stored: seq<Message>)
    requires answer(GeminiCall(DefaultModel, [], [TextPart("Hello")])).Replied?
    ensures resp == Ok(answer(GeminiCall(DefaultModel, [], [TextPart("Hello")])).text)
    ensures title == "Hello"
    ensures |stored| == 2
    ensures stored[0].sender == User && stored[0].text == "Hello" && !stored[0].hasImage
    ensures stored[1].sender == Bot && stored[1].text == resp.body
  {
    var store := new ChatStore();
    var id := store.Create();
    var req := ChatRequest(Some(id), "Hello", None, None);
    ghost var text := answer(GeminiCall(DefaultModel, [], [TextPart("Hello")])).text;
    ghost var n, t, before := store.nextMsg, store.clock, store.msgs;
    assert before == [] && store.MessagesOf(id) == [];
    HelloGoesToGemini(id);
    assert TurnReply(Plan(req, store.MessagesOf(id)), answer) == Success(text);
    assert store.TitleAfterSave(id, "Hello") == "Hello";
    var call;
    resp, call := store.Chat(req, answer);
    assert resp == Ok(text);
    assert store.convs[id].title == "Hello";
    assert |store.msgs| == 2;
    assert store.msgs[0] == UserMessage(req, n, t + 1);
    assert store.msgs[1] == BotMessage(id, text, n + 1, t + 3);
    title := store.convs[id].title;
    stored := store.msgs;
  }
}
