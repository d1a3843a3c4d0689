/**
 * `GET /api/messages`: lists the user's latest Gmail messages, normalises each
 * one into a `Message`, and attaches a category, taken from the per-user
 * classification cache or, for messages not in the cache, from the classifier.
 * New classifications other than the fallback are queued for insertion into
 * the cache.
 *
 * Gmail, the cache table and the classifier backend are inputs: what the
 * calls returned (`ListOutcome`, `fetch`, `CacheOutcome`, `replyFor`), plus
 * the two library conversions the route uses (`decode` for base64 to UTF-8
 * text, `dateOf` for `new Date(parseInt(internalDate))`, absent when that
 * date is invalid and `toISOString` would throw).
 */
module MessagesRoute {
  import opened Wrappers
  import opened JsStrings
  import opened JsArrays
  import opened Mail
  import C = Classification

  // ---------------------------------------------------------------------------
  // The Gmail message resource (format 'full'), as far as the route reads it
  // ---------------------------------------------------------------------------

  datatype Header = Header(name: Option<string>, value: Option<string>)
  datatype PartBody = PartBody(data: Option<string>)
  datatype Part = Part(mimeType: Option<string>, body: Option<PartBody>)
  datatype Payload = Payload(headers: Option<seq<Header>>, parts: Option<seq<Part>>, body: Option<PartBody>)
  datatype GmailMessage = GmailMessage(
    id: Option<string>,
    internalDate: Option<string>,
    snippet: Option<string>,
    labelIds: Option<seq<string>>,
    payload: Option<Payload>)

  // ---------------------------------------------------------------------------
  // Normalisation of one message (route.ts lines 67-93)
  // ---------------------------------------------------------------------------

  /** `h.name?.toLowerCase() === key`. */
  predicate NameIs(h: Header, key: string) {
    h.name.Some? && ToLower(h.name.value) == key
  }

  /** `headers.find(h => h.name?.toLowerCase() === key)?.value || fallback`. */
  function HeaderValue(headers: seq<Header>, key: string, fallback: string): (r: string)
    ensures fallback != "" ==> r != ""
    ensures (forall k :: 0 <= k < |headers| ==> !NameIs(headers[k], key)) ==> r == fallback
    ensures forall k :: 0 <= k < |headers| && NameIs(headers[k], key)
                        && (forall j :: 0 <= j < k ==> !NameIs(headers[j], key)) ==>
                          r == OrElse(headers[k].value, fallback)
  {
    match FirstIndex(headers, (h: Header) => NameIs(h, key))
    case Some(i) => OrElse(headers[i].value, fallback)
    case None => fallback
  }

  predicate IsPlainText(p: Part) {
    p.mimeType == Some("text/plain")
  }

  /** The encoded data of a body, when it is truthy. */
  function Data(body: Option<PartBody>): Option<string> {
    if body.Some? && Truthy(body.value.data) then body.value.data else None
  }

  /**
   * The body text: with a `parts` array (even an empty one), the first
   * top-level `text/plain` part's data, else ""; without one, the payload's
   * own body data, else "".
   */
  function BodyText(payload: Option<Payload>, decode: string -> string): (r: string)
    ensures payload.Some? && payload.value.parts.Some? ==>
              var parts := payload.value.parts.value;
              match FirstIndex(parts, IsPlainText)
              case Some(i) => r == (if Data(parts[i].body).Some? then decode(Data(parts[i].body).value) else "")
              case None => r == ""
    ensures (payload.None? || payload.value.parts.None?) ==>
              r == if payload.Some? && Data(payload.value.body).Some?
                   then decode(Data(payload.value.body).value) else ""
  {
    if payload.Some? && payload.value.parts.Some? then
      var parts := payload.value.parts.value;
      match FirstIndex(parts, IsPlainText)
      case Some(i) => if Data(parts[i].body).Some? then decode(Data(parts[i].body).value) else ""
      case None => ""
    else if payload.Some? && Data(payload.value.body).Some? then
      decode(Data(payload.value.body).value)
    else ""
  }

  /** What normalisation does with one fetched message. */
  datatype Normalised =
    | Dropped             // no id or no internalDate: filtered out
    | Kept(message: Message)
    | BadDate             // `toISOString` throws: the whole request fails

  /** Both the id and the internal date are present and non-empty. */
  predicate Keepable(e: GmailMessage) {
    Truthy(e.id) && Truthy(e.internalDate)
  }

  /** The payload's headers, or none. */
  function HeadersOf(e: GmailMessage): seq<Header> {
    if e.payload.Some? then e.payload.value.headers.GetOr([]) else []
  }

  function Normalise(e: GmailMessage, decode: string -> string, dateOf: string -> Option<int>): (r: Normalised)
    ensures r.Dropped? <==> !Keepable(e)
    ensures r.BadDate? <==> Keepable(e) && dateOf(e.internalDate.value).None?
    ensures r.Kept? ==> var m := r.message;
              && m.id == e.id.value
              && m.subject == HeaderValue(HeadersOf(e), "subject", "Sem Assunto")
              && m.from == HeaderValue(HeadersOf(e), "from", "N/A")
              && m.snippet == OrElse(e.snippet, "")
              && dateOf(e.internalDate.value) == Some(m.receivedAt)
              && m.unread == ("UNREAD" in e.labelIds.GetOr([]))
              && m.labels == e.labelIds.GetOr([])
              && m.subject != "" && m.from != ""
              && m.bodyText == Some(BodyText(e.payload, decode))
              && m.category == None
  {
    if !Keepable(e) then Dropped
    else match dateOf(e.internalDate.value)
      case None => BadDate
      case Some(t) =>
        var headers := HeadersOf(e);
        var labels := e.labelIds.GetOr([]);
        Kept(Message(
          id := e.id.value,
          subject := HeaderValue(headers, "subject", "Sem Assunto"),
          snippet := OrElse(e.snippet, ""),
          from := HeaderValue(headers, "from", "N/A"),
          receivedAt := t,
          labels := labels,
          unread := "UNREAD" in labels,
          bodyText := Some(BodyText(e.payload, decode)),
          category := None))
  }

  /**
   * `fullEmails.filter(Boolean).map(normalise).filter(e => e !== null)`:
   * absent when some message has an invalid date.
   */
  function NormaliseAll(emails: seq<GmailMessage>, decode: string -> string,
                        dateOf: string -> Option<int>): (r: Option<seq<Message>>)
    ensures r.Some? ==> forall k :: 0 <= k < |r.value| ==> r.value[k].subject != "" && r.value[k].category.None?
    ensures r.None? <==> exists k :: 0 <= k < |emails| && Normalise(emails[k], decode, dateOf).BadDate?
  {
    if emails == [] then Some([])
    else
      var rest := NormaliseAll(emails[1..], decode, dateOf);
      assert forall k :: 0 < k < |emails| ==> emails[k] == emails[1..][k - 1];
      match Normalise(emails[0], decode, dateOf)
      case BadDate => None
      case Dropped => rest
      case Kept(m) => if rest.Some? then Some([m] + rest.value) else None
  }

  /** The kept messages are exactly the keepable fetched ones, in provider order. */
  lemma {:induction false} NormaliseAllKeepsOrder(emails: seq<GmailMessage>, decode: string -> string,
                                                  dateOf: string -> Option<int>)
    requires NormaliseAll(emails, decode, dateOf).Some?
    ensures Ids(NormaliseAll(emails, decode, dateOf).value) == GmailIds(Filter(emails, Keepable))
  {
    if emails != [] {
      var e, tail := emails[0], emails[1..];
      assert emails == [e] + tail;
      NormaliseAllKeepsOrder(tail, decode, dateOf);
      var rest := NormaliseAll(tail, decode, dateOf).value;
      var n := Normalise(e, decode, dateOf);
      if n.Dropped? {
        DroppedStep(e, tail);
      } else {
        KeptStep(e, n.message, tail, rest);
      }
    }
  }

  lemma DroppedStep(e: GmailMessage, tail: seq<GmailMessage>)
    requires !Keepable(e)
    ensures Filter([e] + tail, Keepable) == Filter(tail, Keepable)
  {
    assert ([e] + tail)[1..] == tail;
  }

  lemma KeptStep(e: GmailMessage, m: Message, tail: seq<GmailMessage>, rest: seq<Message>)
    requires Keepable(e) && m.id == e.id.value
    requires Ids(rest) == GmailIds(Filter(tail, Keepable))
    ensures Ids([m] + rest) == GmailIds(Filter([e] + tail, Keepable))
  {
    assert ([e] + tail)[1..] == tail;
    assert Filter([e] + tail, Keepable) == [e] + Filter(tail, Keepable);
  }

  /** `Normalise` turns `e` into the kept message `m`. */
  predicate NormalisesTo(e: GmailMessage, m: Message, decode: string -> string, dateOf: string -> Option<int>) {
    Normalise(e, decode, dateOf) == Kept(m)
  }

  /** Each listed message is the normalisation of the keepable fetched message at the same position. */
  lemma {:induction false} NormaliseAllAligned(emails: seq<GmailMessage>, decode: string -> string,
                                               dateOf: string -> Option<int>)
    requires NormaliseAll(emails, decode, dateOf).Some?
    ensures var kept := Filter(emails, Keepable);
            var ms := NormaliseAll(emails, decode, dateOf).value;
            |ms| == |kept| && forall k :: 0 <= k < |ms| ==> NormalisesTo(kept[k], ms[k], decode, dateOf)
  {
    if emails != [] {
      var e, tail := emails[0], emails[1..];
      assert emails == [e] + tail;
      NormaliseAllAligned(tail, decode, dateOf);
      var rest := NormaliseAll(tail, decode, dateOf).value;
      var n := Normalise(e, decode, dateOf);
      if n.Dropped? {
        DroppedStep(e, tail);
      } else {
        assert Keepable(e) && NormalisesTo(e, n.message, decode, dateOf);
        AlignedCons(e, n.message, tail, rest, (x, y) => NormalisesTo(x, y, decode, dateOf));
      }
    }
  }

  /** Prepending a kept element and its image keeps two lists aligned position by position. */
  lemma AlignedCons<B>(e: GmailMessage, m: B, tail: seq<GmailMessage>, rest: seq<B>, rel: (GmailMessage, B) -> bool)
    requires Keepable(e) && rel(e, m)
    requires |rest| == |Filter(tail, Keepable)|
    requires forall k :: 0 <= k < |rest| ==> rel(Filter(tail, Keepable)[k], rest[k])
    ensures var kept := Filter([e] + tail, Keepable);
            |[m] + rest| == |kept| && forall k :: 0 <= k < |kept| ==> rel(kept[k], ([m] + rest)[k])
  {
    assert ([e] + tail)[1..] == tail;
    var kept := Filter([e] + tail, Keepable);
    assert kept == [e] + Filter(tail, Keepable);
    forall k | 0 <= k < |kept| ensures rel(kept[k], ([m] + rest)[k]) {
      if k > 0 { assert kept[k] == Filter(tail, Keepable)[k - 1]; }
    }
  }

  /** The ids of the fetched messages, as strings (only used on keepable ones). */
  function GmailIds(es: seq<GmailMessage>): (r: seq<string>)
    ensures |r| == |es|
  {
    seq(|es|, k requires 0 <= k < |es| => es[k].id.GetOr(""))
  }

  // ---------------------------------------------------------------------------
  // Classification and cache merge (route.ts lines 95-126)
  // ---------------------------------------------------------------------------

  /** A row queued for the `email_classifications` table. */
  datatype Row = Row(messageId: string, userId: string, category: string)

  /** What `classifyEmail` returns for a message not in the cache. */
  function FreshCategory(m: Message, replyFor: string -> C.BackendReply): string {
    C.Classify(m.subject, m.bodyText.GetOr(""), replyFor(m.id)).category
  }

  /** A message after the classification step: uncached ones carry their fresh category. */
  function Classified(m: Message, cache: map<string, string>, replyFor: string -> C.BackendReply): Message {
    if m.id in cache then m else m.(category := Some(FreshCategory(m, replyFor)))
  }

  /** `classificationMap.get(id)`, read only for ids that were in the cache. */
  function Lookup(cache: map<string, string>, id: string): Option<string> {
    if id in cache then Some(cache[id]) else None
  }

  /** The message as returned: freshly classified, or given its cached category. */
  function Merge(m: Message, cache: map<string, string>, replyFor: string -> C.BackendReply): (r: Message)
    ensures r == m.(category := r.category)
    ensures r.category.Some? && r.category.value != ""
    ensures m.id !in cache ==> r.category == Some(FreshCategory(m, replyFor))
    ensures m.id in cache && !Truthy(m.category) ==>
              r.category == Some(if cache[m.id] != "" then cache[m.id] else C.Unclassified)
    ensures m.id in cache && Truthy(m.category) ==> r == m
  {
    var c := Classified(m, cache, replyFor);
    if Truthy(c.category) then c
    else c.(category := Some(OrElse(Lookup(cache, m.id), C.Unclassified)))
  }

  /** The row one message contributes: one for an uncached message unless it got the fallback. */
  function RowFor(m: Message, cache: map<string, string>, userId: string,
                  replyFor: string -> C.BackendReply): seq<Row>
  {
    if m.id !in cache && FreshCategory(m, replyFor) != C.Unclassified
    then [Row(m.id, userId, FreshCategory(m, replyFor))] else []
  }

  /** The rows queued for insertion, in message order. */
  function NewRows(ms: seq<Message>, cache: map<string, string>, userId: string,
                   replyFor: string -> C.BackendReply): seq<Row>
  {
    if ms == [] then [] else RowFor(ms[0], cache, userId, replyFor) + NewRows(ms[1..], cache, userId, replyFor)
  }

  /** The ids handed to the classifier, in message order. */
  function UncachedIds(ms: seq<Message>, cache: map<string, string>): seq<string> {
    if ms == [] then []
    else (if ms[0].id !in cache then [ms[0].id] else []) + UncachedIds(ms[1..], cache)
  }

  /**
   * Step 6 of the route, in place: every message whose id is not in the cache
   * is classified, gets that category, is recorded in the map, and queues a
   * row unless the category is the fallback. The classifications run
   * concurrently in the source; here they run in message order.
   */
  method ClassifyUncached(messages: seq<Message>, cache: map<string, string>, userId: string,
                          replyFor: string -> C.BackendReply)
    returns (msgs: seq<Message>, classificationMap: map<string, string>,
             newClassifications: seq<Row>, asked: seq<string>)
    ensures |msgs| == |messages|
    ensures forall k :: 0 <= k < |messages| ==> msgs[k] == Classified(messages[k], cache, replyFor)
    ensures KeepsCache(cache, classificationMap)
    ensures newClassifications == NewRows(messages, cache, userId, replyFor)
    ensures asked == UncachedIds(messages, cache)
  {
    msgs := messages;
    classificationMap := cache;
    newClassifications := [];
    asked := [];
    var i := 0;
    while i < |messages|
      invariant 0 <= i <= |messages|
      invariant msgs == ClassifiedUpTo(messages, i, cache, replyFor)
      invariant KeepsCache(cache, classificationMap)
      invariant newClassifications + NewRows(messages[i..], cache, userId, replyFor)
                == NewRows(messages, cache, userId, replyFor)
      invariant asked + UncachedIds(messages[i..], cache) == UncachedIds(messages, cache)
    {
      var m := msgs[i];
      SuffixStep(messages, i, cache, userId, replyFor);
      var classified, rows, ids := ClassifyOne(m, cache, userId, replyFor);
      if m.id !in cache {
        KeepsCacheInsert(cache, classificationMap, m.id, classified.category.value);
        classificationMap := classificationMap[m.id := classified.category.value];
      }
      ConcatAssoc(newClassifications, rows, NewRows(messages[i + 1..], cache, userId, replyFor));
      ConcatAssoc(asked, ids, UncachedIds(messages[i + 1..], cache));
      ClassifiedUpToStep(messages, i, cache, replyFor);
      msgs := msgs[i := classified];
      newClassifications := newClassifications + rows;
      asked := asked + ids;
      i := i + 1;
    }
  }

  /** Every cached classification is still in `classificationMap`, unchanged. */
  predicate KeepsCache(cache: map<string, string>, classificationMap: map<string, string>) {
    forall id :: id in cache ==> id in classificationMap && classificationMap[id] == cache[id]
  }

  /** Recording a fresh classification for an uncached id keeps every cached one. */
  lemma KeepsCacheInsert(cache: map<string, string>, classificationMap: map<string, string>, id: string, category: string)
    requires KeepsCache(cache, classificationMap) && id !in cache
    ensures KeepsCache(cache, classificationMap[id := category])
  {
  }

  /** The messages with the first `i` classified and the rest as they were. */
  function ClassifiedUpTo(messages: seq<Message>, i: nat, cache: map<string, string>,
                          replyFor: string -> C.BackendReply): (r: seq<Message>)
    requires i <= |messages|
    ensures |r| == |messages|
    ensures forall k :: 0 <= k < |r| ==> r[k] == if k < i then Classified(messages[k], cache, replyFor) else messages[k]
  {
    seq(|messages|, k requires 0 <= k < |messages| => if k < i then Classified(messages[k], cache, replyFor) else messages[k])
  }

  /** Classifying message `i` extends the classified prefix by one. */
  lemma ClassifiedUpToStep(messages: seq<Message>, i: nat, cache: map<string, string>,
                           replyFor: string -> C.BackendReply)
    requires i < |messages|
    ensures ClassifiedUpTo(messages, i, cache, replyFor)[i := Classified(messages[i], cache, replyFor)]
            == ClassifiedUpTo(messages, i + 1, cache, replyFor)
  {
  }

  /** One message of step 6: its new value, the row it queues and the id it asks about. */
  method ClassifyOne(m: Message, cache: map<string, string>, userId: string, replyFor: string -> C.BackendReply)
    returns (classified: Message, rows: seq<Row>, ids: seq<string>)
    ensures classified == Classified(m, cache, replyFor)
    ensures m.id !in cache ==> classified.category == Some(FreshCategory(m, replyFor))
    ensures rows == RowFor(m, cache, userId, replyFor)
    ensures ids == if m.id !in cache then [m.id] else []
  {
    classified, rows, ids := m, [], [];
    if m.id !in cache {
      var category := FreshCategory(m, replyFor);
      ids := [m.id];
      classified := m.(category := Some(category));
      if category != C.Unclassified {
        rows := [Row(m.id, userId, category)];
      }
    }
  }

  lemma ConcatAssoc<T>(a: seq<T>, b: seq<T>, c: seq<T>)
    ensures (a + b) + c == a + (b + c)
  {
  }

  /** Unfolding the two suffix functions at position `i`. */
  lemma SuffixStep(ms: seq<Message>, i: nat, cache: map<string, string>, userId: string,
                   replyFor: string -> C.BackendReply)
    requires i < |ms|
    ensures NewRows(ms[i..], cache, userId, replyFor)
            == RowFor(ms[i], cache, userId, replyFor) + NewRows(ms[i + 1..], cache, userId, replyFor)
    ensures UncachedIds(ms[i..], cache)
            == (if ms[i].id !in cache then [ms[i].id] else []) + UncachedIds(ms[i + 1..], cache)
  {
    assert ms[i..][1..] == ms[i + 1..];
  }

  /**
   * Step 8 of the route, in place: every message still without a truthy
   * category gets `classificationMap.get(id) || "Não classificado"`.
   */
  method FillFromCache(msgs: seq<Message>, classificationMap: map<string, string>) returns (result: seq<Message>)
    ensures |result| == |msgs|
    ensures forall k :: 0 <= k < |msgs| ==>
              result[k] == if Truthy(msgs[k].category) then msgs[k]
                           else msgs[k].(category := Some(OrElse(Lookup(classificationMap, msgs[k].id), C.Unclassified)))
  {
    result := msgs;
    var i := 0;
    while i < |result|
      invariant 0 <= i <= |result| == |msgs|
      invariant forall k :: 0 <= k < i ==>
                  result[k] == if Truthy(msgs[k].category) then msgs[k]
                               else msgs[k].(category := Some(OrElse(Lookup(classificationMap, msgs[k].id), C.Unclassified)))
      invariant result[i..] == msgs[i..]
    {
      assert result[i] == msgs[i];
      if !Truthy(result[i].category) {
        var cached := if result[i].id in classificationMap then Some(classificationMap[result[i].id]) else None;
        result := result[i := result[i].(category := Some(OrElse(cached, C.Unclassified)))];
      }
      i := i + 1;
    }
  }

  /** Steps 6 and 8 together: each message ends up as `Merge` says. */
  method MergeClassifications(messages: seq<Message>, cache: map<string, string>, userId: string,
                              replyFor: string -> C.BackendReply)
    returns (result: seq<Message>, newClassifications: seq<Row>, asked: seq<string>)
    ensures |result| == |messages|
    ensures forall k :: 0 <= k < |messages| ==> result[k] == Merge(messages[k], cache, replyFor)
    ensures newClassifications == NewRows(messages, cache, userId, replyFor)
    ensures asked == UncachedIds(messages, cache)
  {
    var msgs, classificationMap;
    msgs, classificationMap, newClassifications, asked := ClassifyUncached(messages, cache, userId, replyFor);
    result := FillFromCache(msgs, classificationMap);
    forall k | 0 <= k < |messages|
      ensures result[k] == Merge(messages[k], cache, replyFor)
    {
      var m := messages[k];
      if m.id in cache {
        assert Lookup(classificationMap, m.id) == Lookup(cache, m.id);
      }
    }
  }

  // ---------------------------------------------------------------------------
  // The handler
  // ---------------------------------------------------------------------------

  datatype Session = Session(userId: string)

  /** What `getSession` returned and the request's `X-Google-Access-Token` header. */
  datatype Request = Request(session: Option<Session>, authError: Option<string>, googleToken: Option<string>)

  datatype Metadata = Metadata(id: Option<string>)

  /** `gmail.users.messages.list`: threw, or `data.messages`. */
  datatype ListOutcome = ListFailed | Listed(messages: Option<seq<Metadata>>)

  /** `gmail.users.messages.get` for one id. */
  datatype FetchOutcome = FetchFailed | Fetched(message: GmailMessage)

  datatype CacheRow = CacheRow(messageId: string, category: string)

  /** The cache query: failed, or `data` (possibly null). */
  datatype CacheOutcome = CacheFailed | CacheRows(rows: Option<seq<CacheRow>>)

  /** A request the route makes to Gmail. */
  datatype GmailCall = ListCall | GetCall(id: string)

  datatype Response =
    | Unauthorized(error: string)                      // 401
    | ServerError                                      // 500
    | Listing(messages: seq<Message>, total: int)      // 200

  const MissingTokenError: string := "Google access token is missing from X-Google-Access-Token header"

  /** `new Map(rows.map(c => [c.message_id, c.category]))`: a later row wins. */
  function CacheMap(rows: seq<CacheRow>): (m: map<string, string>)
    ensures forall k :: 0 <= k < |rows| ==> rows[k].messageId in m
    ensures forall id :: id in m ==> exists k :: 0 <= k < |rows| && rows[k].messageId == id && m[id] == rows[k].category
    ensures forall k :: 0 <= k < |rows| && LastRowFor(rows, k) ==> m[rows[k].messageId] == rows[k].category
  {
    if rows == [] then map[]
    else
      var m := CacheMap(rows[..|rows| - 1]);
      CacheMapStep(rows, m);
      m[rows[|rows| - 1].messageId := rows[|rows| - 1].category]
  }

  /** Adding the last row to the map of the earlier ones keeps the three facts of `CacheMap`. */
  lemma CacheMapStep(rows: seq<CacheRow>, m: map<string, string>)
    requires rows != []
    requires var init := rows[..|rows| - 1];
             && (forall k :: 0 <= k < |init| ==> init[k].messageId in m)
             && (forall id :: id in m ==> exists k :: 0 <= k < |init| && init[k].messageId == id && m[id] == init[k].category)
             && (forall k :: 0 <= k < |init| && LastRowFor(init, k) ==> m[init[k].messageId] == init[k].category)
    ensures var m' := m[rows[|rows| - 1].messageId := rows[|rows| - 1].category];
            && (forall k :: 0 <= k < |rows| ==> rows[k].messageId in m')
            && (forall id :: id in m' ==> exists k :: 0 <= k < |rows| && rows[k].messageId == id && m'[id] == rows[k].category)
            && (forall k :: 0 <= k < |rows| && LastRowFor(rows, k) ==> m'[rows[k].messageId] == rows[k].category)
  {
    var init := rows[..|rows| - 1];
    assert forall k :: 0 <= k < |init| ==> init[k] == rows[k];
    assert forall k :: 0 <= k < |init| && LastRowFor(rows, k) ==> LastRowFor(init, k);
  }

  /** No later row carries the same message id as row `k`. */
  predicate LastRowFor(rows: seq<CacheRow>, k: int)
    requires 0 <= k < |rows|
  {
    forall l :: k < l < |rows| ==> rows[l].messageId != rows[k].messageId
  }

  /** A metadata entry with a truthy id. */
  predicate HasId(m: Metadata) {
    Truthy(m.id)
  }

  /** The `get` calls issued, one per metadata entry with a truthy id, in list order. */
  function GetCalls(metas: seq<Metadata>): (r: seq<GmailCall>)
    ensures var withId := Filter(metas, HasId);
            |r| == |withId| && forall k :: 0 <= k < |r| ==> r[k] == GetCall(withId[k].id.value)
  {
    if metas == [] then []
    else (if Truthy(metas[0].id) then [GetCall(metas[0].id.value)] else []) + GetCalls(metas[1..])
  }

  /** `Promise.all` over the fetches: absent when any fetch failed; metadata without id yield nothing. */
  function FetchAll(metas: seq<Metadata>, fetch: string -> FetchOutcome): (r: Option<seq<GmailMessage>>)
    ensures r.None? <==> exists k :: 0 <= k < |metas| && Truthy(metas[k].id) && fetch(metas[k].id.value).FetchFailed?
    ensures r.Some? ==> var withId := Filter(metas, HasId);
              && |r.value| == |withId|
              && forall k :: 0 <= k < |withId| ==> fetch(withId[k].id.value) == Fetched(r.value[k])
  {
    if metas == [] then Some([])
    else
      var rest := FetchAll(metas[1..], fetch);
      if !Truthy(metas[0].id) then rest
      else match fetch(metas[0].id.value)
        case FetchFailed => None
        case Fetched(e) => if rest.Some? then Some([e] + rest.value) else None
  }

  /** The session check and the Google token check both pass. */
  predicate Authorised(req: Request) {
    req.authError.None? && req.session.Some? && Truthy(req.googleToken)
  }

  /** Gmail listed at least one message. */
  predicate NonEmptyListing(list: ListOutcome) {
    list.Listed? && list.messages.Some? && list.messages.value != []
  }

  /** A later step of a non-empty listing failed: the cache query, a fetch, or a date. */
  predicate LaterStepFails(list: ListOutcome, fetch: string -> FetchOutcome, cacheQuery: CacheOutcome,
                           decode: string -> string, dateOf: string -> Option<int>)
    requires NonEmptyListing(list)
  {
    || cacheQuery.CacheFailed?
    || FetchAll(list.messages.value, fetch).None?
    || NormaliseAll(FetchAll(list.messages.value, fetch).value, decode, dateOf).None?
  }

  /** The body of `GET`, one step after another. */
  method Get(req: Request, list: ListOutcome, fetch: string -> FetchOutcome, cacheQuery: CacheOutcome,
             decode: string -> string, dateOf: string -> Option<int>, replyFor: string -> C.BackendReply)
    returns (resp: Response, calls: seq<GmailCall>, inserted: seq<Row>)
    ensures resp.Unauthorized? <==> req.authError.Some? || req.session.None? || !Truthy(req.googleToken)
    ensures resp.Unauthorized? ==> calls == [] && inserted == []
    ensures req.authError.Some? || req.session.None? ==> resp == Unauthorized(OrElse(req.authError, "Unauthorized"))
    ensures req.authError.None? && req.session.Some? && !Truthy(req.googleToken) ==> resp == Unauthorized(MissingTokenError)
    ensures !resp.Unauthorized? ==> |calls| >= 1 && calls[0] == ListCall
    ensures !resp.Unauthorized? && (list.ListFailed? || list.messages.None? || list.messages.value == [] || cacheQuery.CacheFailed?) ==>
              calls == [ListCall]
    ensures Authorised(req) && NonEmptyListing(list) && cacheQuery.CacheRows? ==>
              calls == [ListCall] + GetCalls(list.messages.value)
    ensures !resp.Unauthorized? && list.Listed? && (list.messages.None? || list.messages.value == []) ==>
              resp == Listing([], 0) && inserted == []
    ensures resp.Listing? ==> resp.total == |resp.messages|
    ensures resp.Listing? && resp.messages != [] ==>
              && list.Listed? && list.messages.Some? && cacheQuery.CacheRows?
              && FetchAll(list.messages.value, fetch).Some?
              && var cache := CacheMap(cacheQuery.rows.GetOr([]));
              && var normalised := NormaliseAll(FetchAll(list.messages.value, fetch).value, decode, dateOf);
              && normalised.Some?
              && |resp.messages| == |normalised.value|
              && (forall k :: 0 <= k < |resp.messages| ==>
                    resp.messages[k] == Merge(normalised.value[k], cache, replyFor))
              && inserted == NewRows(normalised.value, cache, req.session.value.userId, replyFor)
    ensures !resp.Listing? ==> inserted == []
    ensures resp == ServerError <==>
              Authorised(req)
              && (list.ListFailed? ||
                  (NonEmptyListing(list) && LaterStepFails(list, fetch, cacheQuery, decode, dateOf)))
    ensures Authorised(req) && NonEmptyListing(list) && !LaterStepFails(list, fetch, cacheQuery, decode, dateOf) ==>
              && resp.Listing?
              && var cache := CacheMap(cacheQuery.rows.GetOr([]));
              && var normalised := NormaliseAll(FetchAll(list.messages.value, fetch).value, decode, dateOf).value;
              && |resp.messages| == |normalised|
              && (forall k :: 0 <= k < |resp.messages| ==> resp.messages[k] == Merge(normalised[k], cache, replyFor))
              && inserted == NewRows(normalised, cache, req.session.value.userId, replyFor)
  {
    calls, inserted := [], [];
    // 1. the session
    if req.authError.Some? || req.session.None? {
      return Unauthorized(OrElse(req.authError, "Unauthorized")), calls, inserted;
    }
    var user := req.session.value;
    // 2. the Google token
    if !Truthy(req.googleToken) {
      return Unauthorized(MissingTokenError), calls, inserted;
    }
    // 3. the message list
    calls := [ListCall];
    if list.ListFailed? {
      return ServerError, calls, inserted;
    }
    if list.messages.None? || list.messages.value == [] {
      return Listing([], 0), calls, inserted;
    }
    var metas := list.messages.value;
    // 4. the cache
    if cacheQuery.CacheFailed? {
      return ServerError, calls, inserted;
    }
    var classificationMap := CacheMap(cacheQuery.rows.GetOr([]));
    // 5. the full messages
    calls := calls + GetCalls(metas);
    var fullEmails := FetchAll(metas, fetch);
    if fullEmails.None? {
      return ServerError, calls, inserted;
    }
    var messages := NormaliseAll(fullEmails.value, decode, dateOf);
    if messages.None? {
      return ServerError, calls, inserted;
    }
    // 6-8. classify, queue, merge; a failed insert does not change the response
    var merged, rows, _ := MergeClassifications(messages.value, classificationMap, user.userId, replyFor);
    inserted := rows;
    resp := Listing(merged, |merged|);
  }

  // ---------------------------------------------------------------------------
  // Properties of the merge
  // ---------------------------------------------------------------------------

  /** Every returned message has a category: a taxonomy label, the fallback, or the cached value. */
  lemma MergedCategory(m: Message, cache: map<string, string>, replyFor: string -> C.BackendReply)
    requires m.category.None?
    ensures var c := Merge(m, cache, replyFor).category.value;
            C.InTaxonomy(c) || c == C.Unclassified || (m.id in cache && c == cache[m.id])
  {
  }

  /** Queued rows never carry the fallback, always carry the user id, and are only for uncached ids. */
  lemma {:induction false} NewRowsSound(ms: seq<Message>, cache: map<string, string>, userId: string,
                                        replyFor: string -> C.BackendReply)
    ensures forall r :: r in NewRows(ms, cache, userId, replyFor) ==>
              && r.category != C.Unclassified
              && C.InTaxonomy(r.category)
              && r.userId == userId
              && r.messageId !in cache
              && exists k :: 0 <= k < |ms| && ms[k].id == r.messageId
                             && r.category == FreshCategory(ms[k], replyFor)
  {
    if ms != [] {
      NewRowsSound(ms[1..], cache, userId, replyFor);
      forall r | r in NewRows(ms[1..], cache, userId, replyFor)
        ensures exists k :: 0 <= k < |ms| && ms[k].id == r.messageId && r.category == FreshCategory(ms[k], replyFor)
      {
        var k :| 0 <= k < |ms[1..]| && ms[1..][k].id == r.messageId && r.category == FreshCategory(ms[1..][k], replyFor);
        assert ms[k + 1] == ms[1..][k];
      }
    }
  }

  /** The classifier is asked about a message exactly when its id is not in the cache. */
  lemma {:induction false} AskedExactlyUncached(ms: seq<Message>, cache: map<string, string>, id: string)
    ensures id in UncachedIds(ms, cache) <==> id !in cache && exists k :: 0 <= k < |ms| && ms[k].id == id
  {
    if ms != [] {
      AskedExactlyUncached(ms[1..], cache, id);
      if exists k :: 0 <= k < |ms[1..]| && ms[1..][k].id == id {
        var k :| 0 <= k < |ms[1..]| && ms[1..][k].id == id;
        assert ms[k + 1].id == id;
      }
      if exists k :: 0 <= k < |ms| && ms[k].id == id {
        var k :| 0 <= k < |ms| && ms[k].id == id;
        if k > 0 { assert ms[1..][k - 1].id == id; }
      }
    }
  }

  /** The route never takes the classifier's "empty message" short cut: the subject is never empty. */
  lemma ClassifierAlwaysAsked(m: Message, replyFor: string -> C.BackendReply)
    requires m.subject != ""
    ensures C.Classify(m.subject, m.bodyText.GetOr(""), replyFor(m.id)).request.Some?
  {
  }
}
