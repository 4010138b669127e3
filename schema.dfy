/** The two stored record kinds (the Mongoose schemas of the server's
    `models` directory) and the queries the server runs over messages. */
module Schema {
  import opened Wrappers

  /** A database identifier (an ObjectId in the server). */
  type Id = nat

  /** A creation time: one reading of the server clock. */
  type Time = nat

  /** Who wrote a message; the schema allows exactly these two values. */
  datatype Sender = User | Bot

  /** A stored message. `hasImage` is false and `imageUrl` absent unless the
      user attached an image. */
  datatype Message = Message(
    id: Id,
    conversationId: Id,
    sender: Sender,
    text: string,
    hasImage: bool,
    imageUrl: Option<string>,
    timestamp: Time)

  /** A stored conversation record, keyed by its id in the store. */
  datatype Conversation = Conversation(title: string, timestamp: Time)

  /** The schema default for a conversation's title. */
  const DefaultTitle: string := "New Chat"

  /** An uploaded image as the upload middleware hands it over: the file's
      bytes, its MIME type and the public URL it is served under. */
  datatype Upload = Upload(bytes: seq<bv8>, mimeType: string, url: string)

  /** Message ids and timestamps both strictly increase along the store; so
      the store order is ascending timestamp order and ids are unique. */
  ghost predicate Chronological(s: seq<Message>)
  {
    forall i, j {:trigger Precedes(s[i], s[j])} :: 0 <= i < j < |s| ==> Precedes(s[i], s[j])
  }

  /** `a` was saved before `b`: a smaller id and an earlier timestamp. */
  predicate Precedes(a: Message, b: Message)
  {
    a.id < b.id && a.timestamp < b.timestamp
  }

  /** The selections the server makes over messages. */
  datatype Criterion =
    | InConversation(c: Id)        // `{ conversationId: c }`
    | OutsideConversation(c: Id)   // what `deleteMany({ conversationId: c })` leaves
    | OtherThan(id: Id)            // every message but the one with this id

  predicate Keeps(k: Criterion, m: Message)
  {
    match k
    case InConversation(c) => m.conversationId == c
    case OutsideConversation(c) => m.conversationId != c
    case OtherThan(id) => m.id != id
  }

  /** The messages of `s` that `k` keeps, in the order of `s`. */
  function Filter(s: seq<Message>, k: Criterion): (r: seq<Message>)
    ensures |r| <= |s|
  {
    if s == [] then []
    else Filter(s[..|s| - 1], k) + (if Keeps(k, s[|s| - 1]) then [s[|s| - 1]] else [])
  }

  /** Filtering a store that grew by one message. */
  lemma FilterSnoc(s: seq<Message>, m: Message, k: Criterion)
    ensures Keeps(k, m) ==> Filter(s + [m], k) == Filter(s, k) + [m]
    ensures !Keeps(k, m) ==> Filter(s + [m], k) == Filter(s, k)
  {
    assert (s + [m])[..|s|] == s;
    assert Filter(s, k) + [] == Filter(s, k);
  }

  /** A message survives the filter exactly when it is in `s` and kept. */
  lemma {:induction false} FilterMembers(s: seq<Message>, k: Criterion)
    ensures forall m :: m in Filter(s, k) <==> m in s && Keeps(k, m)
  {
    if s != [] {
      var init := s[..|s| - 1];
      FilterMembers(init, k);
      assert s == init + [s[|s| - 1]];
    }
  }

  /** Filtering keeps the relative order, so a chronological store yields a
      chronological selection. */
  lemma {:induction false} FilterChronological(s: seq<Message>, k: Criterion)
    requires Chronological(s)
    ensures Chronological(Filter(s, k))
  {
    if s != [] {
      var init := s[..|s| - 1];
      var last := s[|s| - 1];
      FilterChronological(init, k);
      FilterMembers(init, k);
      var f := Filter(init, k);
      if Keeps(k, last) {
        forall i | 0 <= i < |f| ensures Precedes(f[i], last) {
          assert f[i] in init;
          var j :| 0 <= j < |init| && init[j] == f[i];
          assert Precedes(s[j], s[|s| - 1]);
        }
      }
    }
  }

  /** A filter that keeps no message of `s` returns the empty sequence. */
  lemma FilterKeepsNone(s: seq<Message>, k: Criterion)
    requires forall m :: m in s ==> !Keeps(k, m)
    ensures Filter(s, k) == []
  {
    FilterMembers(s, k);
  }

  /** A filter that keeps every message of `s` returns `s` unchanged. */
  lemma {:induction false} FilterKeepsAll(s: seq<Message>, k: Criterion)
    requires forall i :: 0 <= i < |s| ==> Keeps(k, s[i])
    ensures Filter(s, k) == s
  {
    if s != [] {
      var init := s[..|s| - 1];
      FilterKeepsAll(init, k);
      assert s == init + [s[|s| - 1]];
    }
  }

  /** `findOne({ conversationId: c }).sort({ timestamp: -1 })` over a store kept
      in ascending timestamp order: the last message of the conversation. */
  function NewestIn(s: seq<Message>, c: Id): Option<Message>
  {
    var own := Filter(s, InConversation(c));
    if own == [] then None else Some(own[|own| - 1])
  }

  /** The newest message is absent exactly when the conversation has no
      message, and otherwise belongs to it and is at least as recent as each
      of its messages. */
  lemma NewestInIsLatest(s: seq<Message>, c: Id)
    requires Chronological(s)
    ensures NewestIn(s, c).None? <==> forall m :: m in s ==> m.conversationId != c
    ensures NewestIn(s, c).Some? ==>
              && NewestIn(s, c).value in s
              && NewestIn(s, c).value.conversationId == c
              && forall m :: m in s && m.conversationId == c ==> m.timestamp <= NewestIn(s, c).value.timestamp
  {
    var own := Filter(s, InConversation(c));
    FilterMembers(s, InConversation(c));
    FilterChronological(s, InConversation(c));
    if own != [] {
      var newest := own[|own| - 1];
      assert newest in own;
      forall m | m in s && m.conversationId == c ensures m.timestamp <= newest.timestamp {
        assert m in own;
        var i :| 0 <= i < |own| && own[i] == m;
        if i < |own| - 1 {
          assert Precedes(own[i], newest);
        }
      }
    }
  }

  /** Every message a filter selects from `s` is older than a message newer
      than all of `s`. */
  lemma FilterOlder(s: seq<Message>, k: Criterion, m: Message)
    requires forall x :: x in s ==> x.id < m.id
    ensures forall i :: 0 <= i < |Filter(s, k)| ==> Filter(s, k)[i].id < m.id
  {
    FilterMembers(s, k);
    var f := Filter(s, k);
    forall i | 0 <= i < |f| ensures f[i].id < m.id {
      assert f[i] in f;
    }
  }

  /** Appending a message newer than every stored one keeps the store chronological. */
  lemma AppendChronological(s: seq<Message>, m: Message)
    requires Chronological(s)
    requires forall x :: x in s ==> Precedes(x, m)
    ensures Chronological(s + [m])
  {
    var t := s + [m];
    forall i, j | 0 <= i < j < |t| ensures Precedes(t[i], t[j]) {
      if j == |s| {
        assert t[i] in s;
      } else {
        assert Precedes(s[i], s[j]);
      }
    }
  }
}
