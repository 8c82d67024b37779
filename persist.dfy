/** `save_chat_to_firestore` and the two analysis helpers it calls: the transcript join,
    the empty-transcript skip, the per-label maximum of user emotions, its top three,
    the parsing of the sentiment reply, and the final document write. */
module Persist {
  import opened Wrappers
  import opened Text
  import opened Dicts
  import opened Emotions
  import opened Messages

  // ------------------------------------------------------------ transcript

  /** `[msg["message"] for msg in messages if msg["role"] == "USER"]`. */
  function UserTexts(msgs: seq<Message>): (texts: seq<string>)
    ensures texts == [] <==> forall i :: 0 <= i < |msgs| ==> msgs[i].role != UserRole
  {
    if msgs == [] then []
    else
      var last := msgs[|msgs| - 1];
      UserTexts(msgs[..|msgs| - 1]) + (if last.role == UserRole then [last.text] else [])
  }

  /** The user's side of the conversation, texts joined by single spaces. */
  function Transcript(msgs: seq<Message>): string
  {
    Join(" ", UserTexts(msgs))
  }

  /** Only user turns extend the transcript, each at the end, after one space
      (no space before the first one). */
  lemma TranscriptSnoc(msgs: seq<Message>, m: Message)
    ensures Transcript(msgs + [m]) ==
      if m.role != UserRole then Transcript(msgs)
      else if UserTexts(msgs) == [] then m.text
      else Transcript(msgs) + " " + m.text
  {
    assert (msgs + [m])[..|msgs|] == msgs;
    var parts := UserTexts(msgs);
    if m.role == UserRole {
      assert UserTexts(msgs + [m]) == parts + [m.text];
      JoinSnoc(" ", parts, m.text);
    } else {
      assert UserTexts(msgs + [m]) == parts;
    }
  }

  /** The skip at `if not transcript`: it happens when there is no user turn, or exactly
      one whose text is empty; two empty user turns already give the transcript " ". */
  lemma TranscriptEmpty(msgs: seq<Message>)
    ensures Transcript(msgs) == "" <==> UserTexts(msgs) == [] || UserTexts(msgs) == [""]
  {
    JoinEmpty(" ", UserTexts(msgs));
  }

  /** A user turn, an assistant turn and another user turn: the transcript is the two
      user texts around one space, with the assistant's text left out. */
  lemma TranscriptExample(a: string, b: string, c: string, t0: Timestamp, t1: Timestamp, t2: Timestamp)
    ensures Transcript([Message(UserRole, a, t0, []),
                        Message("ASSISTANT", b, t1, []),
                        Message(UserRole, c, t2, [])])
            == a + " " + c
  {
    var m0 := Message(UserRole, a, t0, []);
    var m1 := Message("ASSISTANT", b, t1, []);
    var m2 := Message(UserRole, c, t2, []);
    var ms := [m0, m1, m2];
    assert UserTexts([m0]) == [a] by { assert [m0][..0] == []; }
    assert UserTexts([m0, m1]) == [a] by { assert [m0, m1][..1] == [m0]; }
    assert UserTexts(ms) == [a, c] by { assert ms[..2] == [m0, m1]; }
    assert Join(" ", [a, c]) == a + " " + c by { assert [a, c][1..] == [c]; }
  }

  // ------------------------------------------------------------ emotion aggregation

  /** Python's `max(a, b)`. */
  function Max(a: real, b: real): real { if a >= b then a else b }

  /** `all_emotions[emotion] = max(score, all_emotions.get(emotion, 0))`. */
  function Upsert(acc: Dict, e: Entry): Dict
  {
    Set(acc, e.emotion, Max(e.score, Get(acc, e.emotion, 0.0)))
  }

  /** The inner loop: one message's scores folded into the running maximum. */
  function MergeInto(acc: Dict, es: seq<Entry>): Dict
  {
    if es == [] then acc
    else Upsert(MergeInto(acc, es[..|es| - 1]), es[|es| - 1])
  }

  /** The messages whose scores the outer loop folds in. */
  predicate Contributes(m: Message)
  {
    m.role == UserRole && m.emotions != []
  }

  /** The value of `all_emotions` after the loops of main.py:161-165. */
  function Aggregate(msgs: seq<Message>): Dict
  {
    if msgs == [] then []
    else
      var acc := Aggregate(msgs[..|msgs| - 1]);
      var m := msgs[|msgs| - 1];
      if Contributes(m) then MergeInto(acc, m.emotions) else acc
  }

  /** The nested loop that builds `all_emotions` in place. */
  method AggregateEmotions(messages: seq<Message>) returns (allEmotions: Dict)
    ensures allEmotions == Aggregate(messages)
  {
    allEmotions := [];
    var i := 0;
    while i < |messages|
      invariant 0 <= i <= |messages|
      invariant allEmotions == Aggregate(messages[..i])
    {
      var msg := messages[i];
      assert messages[..i + 1][..i] == messages[..i];
      if msg.role == UserRole && msg.emotions != [] {
        ghost var before := allEmotions;
        var j := 0;
        while j < |msg.emotions|
          invariant 0 <= j <= |msg.emotions|
          invariant allEmotions == MergeInto(before, msg.emotions[..j])
        {
          var e := msg.emotions[j];
          assert msg.emotions[..j + 1][..j] == msg.emotions[..j];
          allEmotions := Set(allEmotions, e.emotion, Max(e.score, Get(allEmotions, e.emotion, 0.0)));
          j := j + 1;
        }
        assert msg.emotions[..j] == msg.emotions;
      }
      i := i + 1;
    }
    assert messages[..i] == messages;
  }

  /** User message `msgs[i]` carries the score `v` for label `l`. */
  ghost predicate Seen(msgs: seq<Message>, l: string, v: real)
  {
    exists i :: 0 <= i < |msgs| && msgs[i].role == UserRole && Entry(l, v) in msgs[i].emotions
  }

  lemma SeenSnoc(msgs: seq<Message>, m: Message, l: string, v: real)
    ensures Seen(msgs + [m], l, v) <==> Seen(msgs, l, v) || (m.role == UserRole && Entry(l, v) in m.emotions)
  {
    var all := msgs + [m];
    if Seen(all, l, v) {
      var i :| 0 <= i < |all| && all[i].role == UserRole && Entry(l, v) in all[i].emotions;
      if i < |msgs| { assert all[i] == msgs[i]; }
    }
    if Seen(msgs, l, v) {
      var i :| 0 <= i < |msgs| && msgs[i].role == UserRole && Entry(l, v) in msgs[i].emotions;
      assert all[i] == msgs[i];
    }
    if m.role == UserRole && Entry(l, v) in m.emotions {
      assert all[|msgs|] == m;
    }
  }

  lemma UpsertGet(m: Dict, e: Entry, l: string)
    ensures Get(Upsert(m, e), l, 0.0) ==
      if l == e.emotion then Max(e.score, Get(m, l, 0.0)) else Get(m, l, 0.0)
  {
    SetGet(m, e.emotion, Max(e.score, Get(m, e.emotion, 0.0)), l, 0.0);
  }

  lemma UpsertKeys(m: Dict, e: Entry, l: string)
    ensures l in Keys(Upsert(m, e)) <==> l in Keys(m) || l == e.emotion
  {
  }

  /** One message's scores: the keys gain that message's labels. */
  lemma {:induction false} MergeIntoKeys(acc: Dict, es: seq<Entry>, l: string)
    ensures l in Keys(MergeInto(acc, es)) <==> l in Keys(acc) || l in Keys(es)
  {
    if es != [] {
      var init, e := es[..|es| - 1], es[|es| - 1];
      MergeIntoKeys(acc, init, l);
      KeysStep(acc, init, e, l, MergeInto(acc, init));
      assert init + [e] == es;
    }
  }

  lemma KeysStep(acc: Dict, init: seq<Entry>, e: Entry, l: string, m: Dict)
    requires l in Keys(m) <==> l in Keys(acc) || l in Keys(init)
    ensures l in Keys(Upsert(m, e)) <==> l in Keys(acc) || l in Keys(init + [e])
  {
    UpsertKeys(m, e, l);
    KeysSnoc(init, e);
  }

  /** Each label's value becomes the larger of its old value and the message's scores for it. */
  lemma {:induction false} MergeIntoMax(acc: Dict, es: seq<Entry>, l: string)
    ensures MaxOf(acc, es, l, Get(MergeInto(acc, es), l, 0.0))
  {
    if es != [] {
      var init, e := es[..|es| - 1], es[|es| - 1];
      MergeIntoMax(acc, init, l);
      var m := MergeInto(acc, init);
      UpsertGet(m, e, l);
      MaxStep(acc, init, e, l, Get(m, l, 0.0), Get(Upsert(m, e), l, 0.0));
      assert init + [e] == es;
    }
  }

  /** `v` is what the running maximum of label `l` may be after folding `es` into `acc`:
      no smaller than before, no smaller than any score of `l` in `es`, and either the
      old value or one of those scores. */
  predicate MaxOf(acc: Dict, es: seq<Entry>, l: string, v: real)
  {
    && v >= Get(acc, l, 0.0)
    && (forall j :: 0 <= j < |es| && es[j].emotion == l ==> es[j].score <= v)
    && (v == Get(acc, l, 0.0) || Entry(l, v) in es)
  }

  lemma MaxStep(acc: Dict, init: seq<Entry>, e: Entry, l: string, before: real, after: real)
    requires MaxOf(acc, init, l, before)
    requires after == if l == e.emotion then Max(e.score, before) else before
    ensures MaxOf(acc, init + [e], l, after)
  {
    var es := init + [e];
    forall j | 0 <= j < |es| && es[j].emotion == l ensures es[j].score <= after {
      if j < |init| { assert es[j] == init[j]; }
    }
    if after != Get(acc, l, 0.0) && after == before {
      var j :| 0 <= j < |init| && init[j] == Entry(l, before);
      assert es[j] == init[j];
    }
  }

  /** The keys of `all_emotions` are exactly the labels of user messages' scores. */
  lemma {:induction false} AggregateKeys(msgs: seq<Message>, l: string)
    ensures l in Keys(Aggregate(msgs)) <==> exists v :: Seen(msgs, l, v)
  {
    if msgs != [] {
      var init, m := msgs[..|msgs| - 1], msgs[|msgs| - 1];
      assert msgs == init + [m];
      AggregateKeys(init, l);
      MergeIntoKeys(Aggregate(init), m.emotions, l);
      forall v ensures Seen(msgs, l, v) <==> Seen(init, l, v) || (m.role == UserRole && Entry(l, v) in m.emotions) {
        SeenSnoc(init, m, l, v);
      }
      KeysIndex(m.emotions, l);
      if l in Keys(m.emotions) && m.role == UserRole {
        var i :| 0 <= i < |m.emotions| && m.emotions[i].emotion == l;
        assert Seen(msgs, l, m.emotions[i].score);
      }
      if Seen(msgs, l, 0.0) || exists v :: Seen(msgs, l, v) {
        var v :| Seen(msgs, l, v);
        if !Seen(init, l, v) {
          assert Entry(l, v) in m.emotions;
          assert l in Keys(m.emotions);
        }
      }
    }
  }

  /** Each value is the maximum of 0 and every score seen for its label
      among the user messages. */
  lemma {:induction false} AggregateIsMax(msgs: seq<Message>, l: string)
    ensures Get(Aggregate(msgs), l, 0.0) >= 0.0
    ensures forall v :: Seen(msgs, l, v) ==> v <= Get(Aggregate(msgs), l, 0.0)
    ensures Get(Aggregate(msgs), l, 0.0) == 0.0 || Seen(msgs, l, Get(Aggregate(msgs), l, 0.0))
  {
    if msgs != [] {
      var init, m := msgs[..|msgs| - 1], msgs[|msgs| - 1];
      assert msgs == init + [m];
      var before := Aggregate(init);
      AggregateIsMax(init, l);
      MergeIntoMax(before, m.emotions, l);
      forall v ensures Seen(msgs, l, v) <==> Seen(init, l, v) || (m.role == UserRole && Entry(l, v) in m.emotions) {
        SeenSnoc(init, m, l, v);
      }
    } else {
      assert Keys([]) == {};
    }
  }

  // ------------------------------------------------------------ order of the aggregated labels

  /** `xs` with every repetition of an earlier string removed: each string once, at its
      first occurrence. */
  function Dedup(xs: seq<string>): seq<string>
  {
    if xs == [] then []
    else
      var init, x := xs[..|xs| - 1], xs[|xs| - 1];
      if x in init then Dedup(init) else Dedup(init) + [x]
  }

  lemma DedupSnoc(xs: seq<string>, x: string)
    ensures Dedup(xs + [x]) == if x in xs then Dedup(xs) else Dedup(xs) + [x]
  {
    assert (xs + [x])[..|xs|] == xs;
  }

  lemma {:induction false} DedupMembers(xs: seq<string>, x: string)
    ensures x in Dedup(xs) <==> x in xs
  {
    if xs != [] {
      var init := xs[..|xs| - 1];
      DedupMembers(init, x);
      assert xs == init + [xs[|xs| - 1]];
    }
  }

  /** The labels of the user messages that contribute scores, in message order. */
  function ScoredLabels(msgs: seq<Message>): seq<string>
  {
    if msgs == [] then []
    else
      var m := msgs[|msgs| - 1];
      ScoredLabels(msgs[..|msgs| - 1]) + (if Contributes(m) then Labels(m.emotions) else [])
  }

  /** One more assignment `all_emotions[emotion] = ...` keeps the labels in first-seen order. */
  lemma OrderStep(m: Dict, e: Entry, q: seq<string>)
    requires Labels(m) == Dedup(q)
    ensures Labels(Upsert(m, e)) == Dedup(q + [e.emotion])
  {
    SetLabels(m, e.emotion, Max(e.score, Get(m, e.emotion, 0.0)));
    KeysLabels(m, e.emotion);
    DedupMembers(q, e.emotion);
    DedupSnoc(q, e.emotion);
  }

  lemma {:induction false} MergeIntoOrder(acc: Dict, es: seq<Entry>, p: seq<string>)
    requires Labels(acc) == Dedup(p)
    ensures Labels(MergeInto(acc, es)) == Dedup(p + Labels(es))
  {
    if es == [] {
      assert p + Labels(es) == p;
    } else {
      var init, e := es[..|es| - 1], es[|es| - 1];
      assert init + [e] == es;
      MergeIntoOrder(acc, init, p);
      assert MergeInto(acc, es) == Upsert(MergeInto(acc, init), e);
      OrderInduct(init, e, p, MergeInto(acc, init));
    }
  }

  lemma OrderInduct(init: seq<Entry>, e: Entry, p: seq<string>, m: Dict)
    requires Labels(m) == Dedup(p + Labels(init))
    ensures Labels(Upsert(m, e)) == Dedup(p + Labels(init + [e]))
  {
    OrderStep(m, e, p + Labels(init));
    LabelsSnoc(init, e);
    assert (p + Labels(init)) + [e.emotion] == p + (Labels(init) + [e.emotion]);
  }

  /** The keys of `all_emotions` come in the order their labels were first scored by a user
      message; this is the order in which the stable top-3 sort breaks ties. */
  lemma {:induction false} AggregateOrder(msgs: seq<Message>)
    ensures Labels(Aggregate(msgs)) == Dedup(ScoredLabels(msgs))
  {
    if msgs != [] {
      var init, m := msgs[..|msgs| - 1], msgs[|msgs| - 1];
      AggregateOrder(init);
      if Contributes(m) {
        MergeIntoOrder(Aggregate(init), m.emotions, ScoredLabels(init));
      } else {
        assert ScoredLabels(msgs) == ScoredLabels(init) + [];
        assert ScoredLabels(init) + [] == ScoredLabels(init);
      }
    }
  }

  /** A label scored 0.2, 0.9 and 0.5 in three user turns ends up with 0.9. */
  lemma AggregateExample(l: string, t: Timestamp)
    ensures Get(Aggregate([Message(UserRole, "a", t, [Entry(l, 0.2)]),
                           Message(UserRole, "b", t, [Entry(l, 0.9)]),
                           Message(UserRole, "c", t, [Entry(l, 0.5)])]), l, 0.0) == 0.9
  {
    var m0 := Message(UserRole, "a", t, [Entry(l, 0.2)]);
    var m1 := Message(UserRole, "b", t, [Entry(l, 0.9)]);
    var m2 := Message(UserRole, "c", t, [Entry(l, 0.5)]);
    AggregateSingle([], m0, l, 0.2);
    assert [] + [m0] == [m0];
    AggregateSingle([m0], m1, l, 0.9);
    assert [m0] + [m1] == [m0, m1];
    AggregateSingle([m0, m1], m2, l, 0.5);
    assert [m0, m1] + [m2] == [m0, m1, m2];
  }

  /** One more user turn scoring only label `l`, folded into a maximum that holds only `l`. */
  lemma AggregateSingle(msgs: seq<Message>, m: Message, l: string, v: real)
    requires Contributes(m) && m.emotions == [Entry(l, v)]
    requires Aggregate(msgs) == [] || (|Aggregate(msgs)| == 1 && Aggregate(msgs)[0].emotion == l)
    ensures Aggregate(msgs + [m]) ==
              [Entry(l, Max(v, if Aggregate(msgs) == [] then 0.0 else Aggregate(msgs)[0].score))]
  {
    AggregateSnoc(msgs, m);
    MergeOne(Aggregate(msgs), Entry(l, v));
    UpsertSingle(Aggregate(msgs), l, v);
  }

  lemma UpsertSingle(acc: Dict, l: string, v: real)
    requires acc == [] || (|acc| == 1 && acc[0].emotion == l)
    ensures Upsert(acc, Entry(l, v)) == [Entry(l, Max(v, if acc == [] then 0.0 else acc[0].score))]
  {
    if acc != [] {
      assert acc[1..] == [];
    }
  }

  lemma MergeOne(acc: Dict, e: Entry)
    ensures MergeInto(acc, [e]) == Upsert(acc, e)
  {
    assert [e][..0] == [];
  }

  lemma AggregateSnoc(msgs: seq<Message>, m: Message)
    ensures Aggregate(msgs + [m]) == if Contributes(m) then MergeInto(Aggregate(msgs), m.emotions) else Aggregate(msgs)
  {
    assert (msgs + [m])[..|msgs|] == msgs;
  }
  // ------------------------------------------------------------ analysis calls

  /** The two chat-completion prompts the pipeline sends. */
  datatype Task = SentimentTask | AssociationsTask

  /** One chat-completion request: the model, which prompt, the transcript and the top
      emotions the prompt is built from, and the token limit. */
  datatype Request = Request(model: string, task: Task, text: string, topEmotions: Dict, maxTokens: nat)

  /** The remote chat-completion service: the reply's content, or the reason the call raised. */
  type Completion = Request -> Result<string, string>

  const ChatModel := "gpt-3.5-turbo"
  const Delimiter := "|||"

  /** Why `save_chat_to_firestore` raises. */
  datatype Error =
    | MissingChatId             // `ValueError("chat_id is required")`
    | AnalysisFailed(reason: string)   // a chat-completion call raised
    | MalformedReply(parts: nat)       // `analysis, feedback = ....split("|||")` could not unpack
    | StoreFailed(reason: string)      // the document write raised

  /** `analysis, feedback = content.split("|||")` followed by `.strip()` of both. */
  function ParseReply(content: string): (r: Result<(string, string), Error>)
    ensures r.Failure? ==> r.error.MalformedReply? && r.error.parts != 2
  {
    var parts := Split(content, Delimiter);
    if |parts| != 2 then Failure(MalformedReply(|parts|))
    else Success((Strip(parts[0]), Strip(parts[1])))
  }

  /** The reply parses exactly when the delimiter occurs once (overlapping occurrences
      inside one cut, as in "|||||", do not count twice); the halves are then the
      stripped text before and after it. */
  lemma ParseReplySoleDelimiter(content: string)
    ensures ParseReply(content).Success? <==> exists i :: SoleOccurrence(content, Delimiter, i)
    ensures forall i :: SoleOccurrence(content, Delimiter, i) ==>
              ParseReply(content) == Success((Strip(content[..i]), Strip(content[i + |Delimiter|..])))
  {
    SplitInTwo(content, Delimiter);
  }

  /** A reply without the delimiter fails with a single part. */
  lemma ParseReplyWithoutDelimiter(content: string)
    requires forall j :: 0 <= j <= |content| ==> !Occurs(content, Delimiter, j)
    ensures ParseReply(content) == Failure(MalformedReply(1))
  {
    assert FindFrom(content, Delimiter, 0).None?;
  }

  /** The request `analyze_sentiment_with_chatgpt` sends. */
  function SentimentRequest(text: string, top: Dict): Request
  {
    Request(ChatModel, SentimentTask, text, top, 300)
  }

  /** The request `extract_entities_with_emotions` sends. */
  function AssociationsRequest(text: string, top: Dict): Request
  {
    Request(ChatModel, AssociationsTask, text, top, 500)
  }

  /** `analyze_sentiment_with_chatgpt`: the emotional analysis and the empathetic feedback. */
  function AnalyzeSentiment(complete: Completion, text: string, top: Dict): Result<(string, string), Error>
  {
    match complete(SentimentRequest(text, top))
    case Failure(e) => Failure(AnalysisFailed(e))
    case Success(content) => ParseReply(content)
  }

  /** The sentiment analysis succeeds exactly when the call returns a reply that `|||` cuts
      once under Python's split (`SoleOccurrence`);
      its halves, stripped, are the analysis and the feedback. A call that raises is
      reported with its reason. */
  lemma AnalyzeSentimentResult(complete: Completion, text: string, top: Dict)
    ensures var reply := complete(SentimentRequest(text, top));
            AnalyzeSentiment(complete, text, top).Success? <==>
              reply.Success? && exists i :: SoleOccurrence(reply.value, Delimiter, i)
    ensures var reply := complete(SentimentRequest(text, top));
            reply.Failure? ==> AnalyzeSentiment(complete, text, top) == Failure(AnalysisFailed(reply.error))
    ensures var reply := complete(SentimentRequest(text, top));
            forall i :: reply.Success? && SoleOccurrence(reply.value, Delimiter, i) ==>
              AnalyzeSentiment(complete, text, top) ==
                Success((Strip(reply.value[..i]), Strip(reply.value[i + |Delimiter|..])))
  {
    var reply := complete(SentimentRequest(text, top));
    if reply.Success? {
      ParseReplySoleDelimiter(reply.value);
    }
  }

  /** `extract_entities_with_emotions`: the reply's content, unparsed. */
  function ExtractAssociations(complete: Completion, text: string, top: Dict): Result<string, Error>
  {
    match complete(AssociationsRequest(text, top))
    case Failure(e) => Failure(AnalysisFailed(e))
    case Success(content) => Success(content)
  }

  // ------------------------------------------------------------ the pipeline

  /** The `chat_data` document, without the server-assigned timestamp. */
  datatype ChatRecord = ChatRecord(
    transcript: string,
    topEmotions: Dict,
    emotionalAnalysis: string,
    empatheticFeedback: string,
    emotionalAssociations: string)

  /** How a call that did not raise ended: it returned early, or it wrote `record` under `id`. */
  datatype Outcome = Skipped | Stored(id: string, record: ChatRecord)

  /** `if not chat_id`: both `None` and the empty string are missing. */
  predicate HasChatId(chatId: Option<string>)
  {
    chatId.Some? && chatId.value != ""
  }

  /** Everything `save_chat_to_firestore` decides before the write: raise, skip, or the
      document to write. */
  function Finalize(chatId: Option<string>, msgs: seq<Message>, complete: Completion): (r: Result<Outcome, Error>)
    ensures r == Failure(MissingChatId) <==> !HasChatId(chatId)
    ensures r == Success(Skipped) <==> HasChatId(chatId) && (UserTexts(msgs) == [] || UserTexts(msgs) == [""])
    ensures r.Success? && r.value.Stored? ==>
              r.value.id == chatId.value &&
              r.value.record.transcript == Transcript(msgs) != "" &&
              r.value.record.topEmotions == TopN(Aggregate(msgs), 3)
  {
    TranscriptEmpty(msgs);
    if !HasChatId(chatId) then Failure(MissingChatId)
    else
      var transcript := Transcript(msgs);
      if transcript == "" then Success(Skipped)
      else
        var top := TopN(Aggregate(msgs), 3);
        Assemble(chatId.value, transcript, top,
                 AnalyzeSentiment(complete, transcript, top), ExtractAssociations(complete, transcript, top))
  }

  /** The document built from the two analysis results; the first failure raises. */
  function Assemble(id: string, transcript: string, top: Dict,
                    sentiment: Result<(string, string), Error>, associations: Result<string, Error>): Result<Outcome, Error>
  {
    match sentiment
    case Failure(e) => Failure(e)
    case Success((analysis, feedback)) =>
      match associations
      case Failure(e) => Failure(e)
      case Success(text) => Success(Stored(id, ChatRecord(transcript, top, analysis, feedback, text)))
  }

  lemma FinalizeAssembles(chatId: Option<string>, msgs: seq<Message>, complete: Completion)
    requires HasChatId(chatId) && Transcript(msgs) != ""
    ensures var top := TopN(Aggregate(msgs), 3);
            Finalize(chatId, msgs, complete) ==
            Assemble(chatId.value, Transcript(msgs), top,
                     AnalyzeSentiment(complete, Transcript(msgs), top),
                     ExtractAssociations(complete, Transcript(msgs), top))
  {
  }

  /** A conversation without user turns is never written. */
  lemma NoUserTurnNoWrite(chatId: Option<string>, msgs: seq<Message>, complete: Completion)
    requires forall i :: 0 <= i < |msgs| ==> msgs[i].role != UserRole
    ensures Finalize(chatId, msgs, complete) == if HasChatId(chatId) then Success(Skipped) else Failure(MissingChatId)
  {
  }

  /** A failing or malformed sentiment reply is not recovered: the pipeline raises and
      writes nothing, whatever the second call would have returned. */
  lemma SentimentFailureRaises(chatId: Option<string>, msgs: seq<Message>, complete: Completion)
    requires HasChatId(chatId) && Transcript(msgs) != ""
    requires AnalyzeSentiment(complete, Transcript(msgs), TopN(Aggregate(msgs), 3)).Failure?
    ensures Finalize(chatId, msgs, complete) ==
              Failure(AnalyzeSentiment(complete, Transcript(msgs), TopN(Aggregate(msgs), 3)).error)
  {
  }

  /** A failing associations call is not recovered either: after a successful sentiment
      call the pipeline raises that call's error, and nothing is written. */
  lemma AssociationsFailureRaises(chatId: Option<string>, msgs: seq<Message>, complete: Completion, fault: Option<string>)
    requires HasChatId(chatId) && Transcript(msgs) != ""
    requires AnalyzeSentiment(complete, Transcript(msgs), TopN(Aggregate(msgs), 3)).Success?
    requires ExtractAssociations(complete, Transcript(msgs), TopN(Aggregate(msgs), 3)).Failure?
    ensures Finalize(chatId, msgs, complete) ==
              Failure(ExtractAssociations(complete, Transcript(msgs), TopN(Aggregate(msgs), 3)).error)
    ensures Persisted(chatId, msgs, complete, fault) == Finalize(chatId, msgs, complete)
  {
    FinalizeAssembles(chatId, msgs, complete);
  }

  /** When both calls succeed and `|||` cuts the sentiment reply once, the document is written
      under the chat id and holds the transcript, the top three emotions, the stripped halves
      of the sentiment reply and the associations reply unchanged. */
  lemma FinalizeStores(chatId: Option<string>, msgs: seq<Message>, complete: Completion, i: int)
    requires HasChatId(chatId) && Transcript(msgs) != ""
    requires complete(SentimentRequest(Transcript(msgs), TopN(Aggregate(msgs), 3))).Success?
    requires SoleOccurrence(complete(SentimentRequest(Transcript(msgs), TopN(Aggregate(msgs), 3))).value, Delimiter, i)
    requires complete(AssociationsRequest(Transcript(msgs), TopN(Aggregate(msgs), 3))).Success?
    ensures var top := TopN(Aggregate(msgs), 3);
            var reply := complete(SentimentRequest(Transcript(msgs), top)).value;
            Finalize(chatId, msgs, complete) ==
              Success(Stored(chatId.value,
                             ChatRecord(Transcript(msgs), top,
                                        Strip(reply[..i]), Strip(reply[i + |Delimiter|..]),
                                        complete(AssociationsRequest(Transcript(msgs), top)).value)))
  {
    var top := TopN(Aggregate(msgs), 3);
    AnalyzeSentimentResult(complete, Transcript(msgs), top);
    FinalizeAssembles(chatId, msgs, complete);
  }

  /** A written document holds both halves of a sentiment reply that the delimiter
      cuts once, and the associations reply unchanged. */
  lemma StoredReplyParsed(chatId: Option<string>, msgs: seq<Message>, complete: Completion)
    requires Finalize(chatId, msgs, complete).Success? && Finalize(chatId, msgs, complete).value.Stored?
    ensures var top := TopN(Aggregate(msgs), 3);
            var req := SentimentRequest(Transcript(msgs), top);
            var rec := Finalize(chatId, msgs, complete).value.record;
            complete(req).Success? &&
            (exists i :: SoleOccurrence(complete(req).value, Delimiter, i) &&
              rec.emotionalAnalysis == Strip(complete(req).value[..i]) &&
              rec.empatheticFeedback == Strip(complete(req).value[i + |Delimiter|..])) &&
            complete(AssociationsRequest(Transcript(msgs), top)) == Success(rec.emotionalAssociations)
  {
    var top := TopN(Aggregate(msgs), 3);
    FinalizeAssembles(chatId, msgs, complete);
    AnalyzeSentimentResult(complete, Transcript(msgs), top);
    var content := complete(SentimentRequest(Transcript(msgs), top)).value;
    var i :| SoleOccurrence(content, Delimiter, i);
  }

  // ------------------------------------------------------------ the document store

  const Collection := "Hume"

  /** Where a document lives: `db.collection(collection).document(id)`. */
  datatype DocPath = DocPath(collection: string, id: string)

  /** The remote document database, as the set of documents it holds. */
  class Firestore {
    var documents: map<DocPath, ChatRecord>

    /** `firestore.client()`: a client on the project's database, holding `docs`. */
    constructor (docs: map<DocPath, ChatRecord>)
      ensures documents == docs
    {
      documents := docs;
    }

    /** `document.set(data)`: replaces whatever was stored under `path`; `fault` is the
        reason the remote call raises, if it does. */
    method SetDocument(path: DocPath, data: ChatRecord, fault: Option<string>) returns (r: Result<(), string>)
      modifies this
      ensures fault.None? ==> r == Success(()) && documents == old(documents)[path := data]
      ensures fault.Some? ==> r == Failure(fault.value) && documents == old(documents)
    {
      if fault.Some? {
        return Failure(fault.value);
      }
      documents := documents[path := data];
      return Success(());
    }
  }

  /** The result of `save_chat_to_firestore`, given the store's fault, if any. */
  function Persisted(chatId: Option<string>, msgs: seq<Message>, complete: Completion, fault: Option<string>): Result<Outcome, Error>
  {
    WithWrite(Finalize(chatId, msgs, complete), fault)
  }

  /** A planned write fails when the store does. */
  function WithWrite(planned: Result<Outcome, Error>, fault: Option<string>): Result<Outcome, Error>
  {
    match planned
    case Success(Stored(id, record)) =>
      if fault.Some? then Failure(StoreFailed(fault.value)) else planned
    case _ => planned
  }

  /** The documents after a call that ended with `r`. */
  function AfterWrite(docs: map<DocPath, ChatRecord>, r: Result<Outcome, Error>): map<DocPath, ChatRecord>
  {
    if r.Success? && r.value.Stored? then docs[DocPath(Collection, r.value.id) := r.value.record] else docs
  }

  /** `save_chat_to_firestore(chat_id, messages)`. */
  method SaveChat(chatId: Option<string>, messages: seq<Message>, complete: Completion,
                  db: Firestore, fault: Option<string>) returns (r: Result<Outcome, Error>)
    modifies db
    ensures r == Persisted(chatId, messages, complete, fault)
    ensures db.documents == AfterWrite(old(db.documents), r)
  {
    if !(chatId.Some? && chatId.value != "") {
      return Failure(MissingChatId);
    }
    var transcript := Join(" ", UserTexts(messages));
    assert transcript == Transcript(messages);
    if transcript == "" {
      return Success(Skipped);
    }
    var allEmotions := AggregateEmotions(messages);
    var topEmotions := TopN(allEmotions, 3);
    FinalizeAssembles(chatId, messages, complete);
    var planned := Analyze(chatId.value, transcript, topEmotions, complete);
    r := Store(planned, db, fault);
  }

  /** The two analysis calls, in the order the source makes them; the first that raises
      ends the pipeline. */
  method Analyze(id: string, transcript: string, topEmotions: Dict, complete: Completion)
    returns (planned: Result<Outcome, Error>)
    ensures planned == Assemble(id, transcript, topEmotions,
                                AnalyzeSentiment(complete, transcript, topEmotions),
                                ExtractAssociations(complete, transcript, topEmotions))
  {
    var sentiment := AnalyzeSentiment(complete, transcript, topEmotions);
    if sentiment.Failure? {
      return Failure(sentiment.error);
    }
    var (analysis, feedback) := sentiment.value;
    var associations := ExtractAssociations(complete, transcript, topEmotions);
    if associations.Failure? {
      return Failure(associations.error);
    }
    return Success(Stored(id, ChatRecord(transcript, topEmotions, analysis, feedback, associations.value)));
  }

  /** `db.collection("Hume").document(chat_id).set(chat_data)` for a planned document. */
  method Store(planned: Result<Outcome, Error>, db: Firestore, fault: Option<string>) returns (r: Result<Outcome, Error>)
    modifies db
    ensures r == WithWrite(planned, fault)
    ensures db.documents == AfterWrite(old(db.documents), r)
  {
    if planned.Failure? || planned.value.Skipped? {
      return planned;
    }
    var written := db.SetDocument(DocPath(Collection, planned.value.id), planned.value.record, fault);
    if written.Failure? {
      return Failure(StoreFailed(written.error));
    }
    return planned;
  }
}
