/** `POST confessions/analyze` of supabase/functions/server/index.tsx: the
    conversation is flattened into one transcript; a language-model verdict,
    when one comes back, is passed through with its karma change clamped to
    [-10, 10]; otherwise the keyword fallback `simpleKarmaAnalysis` decides. The
    model call itself is outside the model: its outcome is the `llm` parameter,
    `None` standing for a missing API key, an HTTP error or unparsable output.
    `Math.random()` is the `dice` parameter. */
module Analyzer {
  import opened Wrappers
  import opened Text
  import opened Kv
  import opened Handlers

  const MinKarmaChange := -10
  const MaxKarmaChange := 10

  /** `Math.max(-10, Math.min(10, x))` */
  function ClampKarma(x: int): (r: int)
    ensures MinKarmaChange <= r <= MaxKarmaChange
    ensures MinKarmaChange <= x <= MaxKarmaChange ==> r == x
    ensures x < MinKarmaChange ==> r == MinKarmaChange
    ensures x > MaxKarmaChange ==> r == MaxKarmaChange
  {
    if x < MinKarmaChange then MinKarmaChange
    else if x > MaxKarmaChange then MaxKarmaChange
    else x
  }

  /** Clamping never reorders two verdicts. */
  lemma ClampMonotone(x: int, y: int)
    requires x <= y
    ensures ClampKarma(x) <= ClampKarma(y)
  {
  }

  /** How each speaker is named in the transcript. */
  function SpeakerLabel(role: Role): string {
    match role
    case User => "Исповедующийся"
    case Assistant => "Духовный Наставник"
  }

  /** One transcript line, `<speaker>: <content>`. */
  function Line(m: Message): string {
    SpeakerLabel(m.role) + ": " + m.content
  }

  /** `messages.map(line).join('\n')` */
  function Transcript(messages: seq<Message>): (r: string)
    ensures r == "" <==> messages == []
    ensures messages != [] ==> |r| >= |Line(messages[0])|
  {
    if |messages| == 0 then ""
    else if |messages| == 1 then Line(messages[0])
    else Line(messages[0]) + "\n" + Transcript(messages[1..])
  }

  /** Every message's content occurs, as it was written, in the transcript. */
  lemma {:induction false} TranscriptContainsMessage(messages: seq<Message>, i: nat)
    requires i < |messages|
    ensures Contains(Transcript(messages), messages[i].content)
    decreases |messages|
  {
    var m := messages[i];
    if i == 0 {
      assert HasPrefix(m.content, m.content);
      ContainsAppendRight(SpeakerLabel(m.role) + ": ", m.content, m.content);
      if |messages| > 1 {
        var rest := "\n" + Transcript(messages[1..]);
        assert Transcript(messages) == Line(m) + rest;
        ContainsAppendLeft(Line(m), rest, m.content);
      }
    } else {
      var head := Line(messages[0]) + "\n";
      assert Transcript(messages) == head + Transcript(messages[1..]);
      TranscriptContainsMessage(messages[1..], i - 1);
      ContainsAppendRight(head, Transcript(messages[1..]), m.content);
    }
  }

  /** A word said in any message is seen in the lower-cased transcript, so
      every message of the conversation takes part in the analysis. */
  lemma TranscriptShowsEveryMessage(messages: seq<Message>, i: nat, w: string)
    requires i < |messages|
    requires Contains(Lower(messages[i].content), w)
    ensures Contains(Lower(Transcript(messages)), w)
  {
    TranscriptContainsMessage(messages, i);
    ContainsLower(Transcript(messages), messages[i].content);
    ContainsTrans(Lower(Transcript(messages)), Lower(messages[i].content), w);
  }

  // ------------------------------------------------------- keyword fallback

  const GoodDeedWords: seq<string> := ["помог", "помогу", "пожертвовал", "отдал", "накормил", "приютил", "спас", "простил обидчика", "искупил"]
  const RepentanceWords: seq<string> := ["раскаяние", "простите", "сожалею", "виноват", "прощения", "каюсь"]
  const SinWords: seq<string> := ["украл", "обманул", "предал", "ударил", "изил", "изменил", "соврал", "обидел сильно"]
  const RedemptionWords: seq<string> := ["исправил", "попросил прощения", "вернул", "загладил вину"]

  /** The response body of an analysis. */
  datatype Analysis = Analysis(karmaChange: int, summary: string, reasoning: string)

  /** The five outcomes of the fallback, in the order its branches are tried. */
  datatype Verdict = GoodDeeds | UnrepentedSin | RepentedSin | RepentanceOnly | Reflection

  predicate DoesGood(text: string) {
    ContainsAny(text, GoodDeedWords) || ContainsAny(text, RedemptionWords)
  }

  /** A sin is told and neither a good deed nor repentance is. */
  predicate Unrepented(text: string) {
    !DoesGood(text) && ContainsAny(text, SinWords) && !ContainsAny(text, RepentanceWords)
  }

  /** The fallback's branch for an (already lower-cased) text. */
  function Judge(text: string): Verdict {
    if DoesGood(text) then GoodDeeds
    else if ContainsAny(text, SinWords) && !ContainsAny(text, RepentanceWords) then UnrepentedSin
    else if ContainsAny(text, SinWords) then RepentedSin
    else if ContainsAny(text, RepentanceWords) then RepentanceOnly
    else Reflection
  }

  /** The summary and reasoning lines of the five outcomes. */
  const GoodDeedsSummary := "Благие дела и добрые поступки"
  const UnrepentedSinSummary := "Грех требует осознания"
  const RepentedSinSummary := "Раскаяние принято"
  const RepentanceOnlySummary := "Исповедь с раскаянием"
  const ReflectionSummary := "Духовная беседа"
  const GoodDeedsReasoning := "Ваши добрые дела приносят свет в мир. Господь видит вашу искренность и щедрость сердца."
  const UnrepentedSinReasoning := "Содеянное требует искреннего раскаяния и стремления к исправлению. Обратитесь к Богу с чистым сердцем."
  const RepentedSinReasoning := "Ваше раскаяние искренне. Теперь искупите вину добрыми делами, и Господь простит вас."
  const RepentanceOnlyReasoning := "Раскаяние - первый шаг. Теперь идите и творите добро, чтобы искупить содеянное."
  const ReflectionReasoning := "Размышления и вопросы о жизни - важная часть духовного пути. Продолжайте искать истину."

  function Summary(v: Verdict): string {
    match v
    case GoodDeeds => GoodDeedsSummary
    case UnrepentedSin => UnrepentedSinSummary
    case RepentedSin => RepentedSinSummary
    case RepentanceOnly => RepentanceOnlySummary
    case Reflection => ReflectionSummary
  }

  function Reasoning(v: Verdict): string {
    match v
    case GoodDeeds => GoodDeedsReasoning
    case UnrepentedSin => UnrepentedSinReasoning
    case RepentedSin => RepentedSinReasoning
    case RepentanceOnly => RepentanceOnlyReasoning
    case Reflection => ReflectionReasoning
  }

  /** Each outcome has its own summary line, so the summary tells the outcome. */
  lemma SummaryTellsVerdict(v: Verdict, u: Verdict)
    ensures Summary(v) == Summary(u) <==> v == u
  {
    if v != u {
      assert Summary(v)[0] != Summary(u)[0];
    }
  }

  /** `simpleKarmaAnalysis(conversation)`: good deeds or redemption earn
      `floor(random * 4) + 3`, sin without repentance costs
      `floor(random * 5) - 8`, anything else leaves karma alone. */
  function SimpleKarmaAnalysis(conversation: string, dice: nat): (a: Analysis)
    ensures a.karmaChange > 0 <==> DoesGood(Lower(conversation))
    ensures a.karmaChange < 0 <==> Unrepented(Lower(conversation))
    ensures a.karmaChange > 0 ==> 3 <= a.karmaChange <= 6
    ensures a.karmaChange < 0 ==> -8 <= a.karmaChange <= -4
    ensures MinKarmaChange <= a.karmaChange <= MaxKarmaChange
  {
    var v := Judge(Lower(conversation));
    var change :=
      match v
      case GoodDeeds => dice % 4 + 3
      case UnrepentedSin => dice % 5 - 8
      case _ => 0;
    Analysis(change, Summary(v), Reasoning(v))
  }

  /** Every reward from +3 to +6 can be drawn for a good deed. */
  lemma EveryRewardReachable(conversation: string, k: int)
    requires DoesGood(Lower(conversation))
    requires 3 <= k <= 6
    ensures SimpleKarmaAnalysis(conversation, (k - 3) as nat).karmaChange == k
  {
  }

  /** Every penalty from -8 to -4 can be drawn for an unrepented sin. */
  lemma EveryPenaltyReachable(conversation: string, k: int)
    requires Unrepented(Lower(conversation))
    requires -8 <= k <= -4
    ensures SimpleKarmaAnalysis(conversation, (k + 8) as nat).karmaChange == k
  {
  }

  /** A good deed told in any message of the conversation earns a reward,
      whatever sins are told alongside it. */
  lemma GoodDeedAnywhereRewarded(messages: seq<Message>, i: nat, j: nat, dice: nat)
    requires i < |messages| && j < |GoodDeedWords|
    requires Contains(Lower(messages[i].content), GoodDeedWords[j])
    ensures SimpleKarmaAnalysis(Transcript(messages), dice).karmaChange >= 3
  {
    TranscriptShowsEveryMessage(messages, i, GoodDeedWords[j]);
  }

  // ------------------------------------------------------------- handler

  /** What a language model answered, once parsed. */
  datatype ModelVerdict = ModelVerdict(karmaChange: int, summary: string, reasoning: string)

  /** `POST confessions/analyze` with body `{messages}`. */
  function Analyze(messages: Option<seq<Message>>, llm: Option<ModelVerdict>, dice: nat): (r: Response<Analysis>)
    ensures messages.None? || messages.value == [] <==> r == BadRequest
    ensures r.Ok? ==> MinKarmaChange <= r.value.karmaChange <= MaxKarmaChange
    ensures r.Ok? && llm.Some? ==>
      r.value == Analysis(ClampKarma(llm.value.karmaChange), llm.value.summary, llm.value.reasoning)
    ensures r.Ok? && llm.None? ==> exists v: Verdict :: r.value.summary == Summary(v) && r.value.reasoning == Reasoning(v)
  {
    if messages.None? || messages.value == [] then BadRequest
    else
      var conversation := Transcript(messages.value);
      match llm
      case Some(m) => Ok(Analysis(ClampKarma(m.karmaChange), m.summary, m.reasoning))
      case None => Ok(SimpleKarmaAnalysis(conversation, dice))
  }

  /** Without a model verdict the handler answers with the keyword fallback on the transcript. */
  lemma AnalyzeFallsBack(messages: seq<Message>, dice: nat)
    requires messages != []
    ensures Analyze(Some(messages), None, dice) == Ok(SimpleKarmaAnalysis(Transcript(messages), dice))
  {
  }
}
