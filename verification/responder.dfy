/** The keyword responders: the client's `generateAIResponse`
    (src/app/components/confession-chat.tsx) and the server's fallback
    `generateSimpleResponse` (supabase/functions/server/index.tsx). Both lower-case
    the input and walk one cascade of themed keyword rules, first match wins;
    the server's rules carry one extra keyword per theme and pick one of a few
    replies per theme at random. */
module Responder {
  import opened Text

  /** The themes of the cascade, in the order the rules are tried, and the
      fallback `General` when no rule matches. */
  datatype Theme = Sin | Repentance | Fear | Loneliness | Anger | General

  /** One keyword rule: the theme chosen when any of its words occurs. */
  datatype Rule = Rule(theme: Theme, words: seq<string>)

  /** Position of a theme in the cascade. */
  function Rank(t: Theme): nat {
    match t
    case Sin => 0
    case Repentance => 1
    case Fear => 2
    case Loneliness => 3
    case Anger => 4
    case General => 5
  }

  /** The index of the first rule with a word occurring in `text`, or
      `|rules|` when none has one; the contract pins it down uniquely. */
  function FirstMatch(rules: seq<Rule>, text: string): (i: nat)
    ensures i <= |rules|
    ensures i < |rules| ==> ContainsAny(text, rules[i].words)
    ensures forall j :: 0 <= j < i ==> !ContainsAny(text, rules[j].words)
  {
    if rules == [] then 0
    else if ContainsAny(text, rules[0].words) then 0
    else 1 + FirstMatch(rules[1..], text)
  }

  /** The theme the cascade settles on. */
  function Classify(rules: seq<Rule>, text: string): Theme {
    var i := FirstMatch(rules, text);
    if i < |rules| then rules[i].theme else General
  }

  /** Rules whose themes are pairwise different and never the fallback. */
  predicate Unambiguous(rules: seq<Rule>) {
    (forall i :: 0 <= i < |rules| ==> rules[i].theme != General)
    && (forall i, j :: 0 <= i < j < |rules| ==> rules[i].theme != rules[j].theme)
  }

  /** First match wins: rule `i`'s theme is chosen exactly when one of its words
      occurs and no word of an earlier rule does. */
  lemma ClassifyChoosesFirst(rules: seq<Rule>, text: string, i: nat)
    requires Unambiguous(rules)
    requires i < |rules|
    ensures Classify(rules, text) == rules[i].theme
            <==> ContainsAny(text, rules[i].words)
                 && forall j :: 0 <= j < i ==> !ContainsAny(text, rules[j].words)
  {
    var k := FirstMatch(rules, text);
    if Classify(rules, text) == rules[i].theme {
      assert k < |rules|;
    }
  }

  /** With no rule matching, the fallback theme is chosen. */
  lemma ClassifyGeneral(rules: seq<Rule>, text: string)
    requires Unambiguous(rules)
    ensures Classify(rules, text) == General
            <==> forall j :: 0 <= j < |rules| ==> !ContainsAny(text, rules[j].words)
  {
    var k := FirstMatch(rules, text);
    if k < |rules| {
      assert rules[k].theme != General;
    }
  }

  /** Rule lists that agree on themes, where `b`'s rules match wherever `a`'s
      do, settle no later in `b` than in `a`. */
  lemma {:induction false} FirstMatchMonotone(a: seq<Rule>, b: seq<Rule>, text: string)
    requires |a| == |b|
    requires forall i :: 0 <= i < |a| ==> ContainsAny(text, a[i].words) ==> ContainsAny(text, b[i].words)
    ensures FirstMatch(b, text) <= FirstMatch(a, text)
  {
    var i := FirstMatch(a, text);
    if i < |a| {
      assert ContainsAny(text, b[i].words);
    }
  }

  /** Adding words to a rule can only make it match more often; without the
      added words occurring, it matches exactly as before. */
  lemma ContainsAnyAppend(text: string, words: seq<string>, extra: seq<string>)
    ensures ContainsAny(text, words) ==> ContainsAny(text, words + extra)
    ensures ContainsAny(text, words + extra) && !ContainsAny(text, extra) ==> ContainsAny(text, words)
  {
    if ContainsAny(text, words) {
      var i :| 0 <= i < |words| && Contains(text, words[i]);
      assert (words + extra)[i] == words[i];
    }
    assert forall j :: 0 <= j < |extra| ==> (words + extra)[|words| + j] == extra[j];
  }

  // ---------------------------------------------------------------- client

  /** The client's cascade (confession-chat.tsx, `generateAIResponse`). */
  const ClientRules: seq<Rule> := [
    Rule(Sin, ["грех", "согрешил", "виновен"]),
    Rule(Repentance, ["прост", "раскаи", "сожале"]),
    Rule(Fear, ["страх", "боюсь", "тревож"]),
    Rule(Loneliness, ["одинок", "один", "покину"]),
    Rule(Anger, ["злость", "гнев", "ненавижу"])
  ]

  /** The theme `generateAIResponse` answers with. */
  function ClientTheme(input: string): Theme {
    Classify(ClientRules, Lower(input))
  }

  /** The fixed reply the client shows for each theme. */
  const SinReply := "Дитя Божие, помните слова из 1 Иоанна 1:9: 'Если исповедуем грехи наши, то Он, будучи верен и праведен, простит нам грехи наши и очистит нас от всякой неправды.' Бог милосерден и всегда готов простить тех, кто искренне раскаивается. Ваше признание - это первый шаг к исцелению."
  const RepentanceReply := "Псалом 51:17 говорит нам: 'Жертва Богу — дух сокрушенный; сердца сокрушенного и смиренного Ты не презришь, Боже.' Ваше раскаяние искренне, и Господь видит ваше сердце. Простите себя так же, как Бог прощает вас, и идите вперед в свете Его благодати."
  const FearReply := "В Евангелии от Иоанна 14:27 Иисус говорит: 'Мир оставляю вам, мир Мой даю вам; не так, как мир дает, Я даю вам. Да не смущается сердце ваше и да не устрашается.' Доверьтесь Господу, ибо Он с вами всегда. Ваши страхи понятны, но помните, что Божья любовь изгоняет страх."
  const LonelinessReply := "Помните обещание из Второзакония 31:6: 'Будь тверд и мужествен, не бойся и не ужасайся пред ними, ибо Господь Бог твой Сам пойдет с тобою и не отступит от тебя, и не оставит тебя.' Вы никогда не одиноки - Бог всегда рядом с вами, даже в самые темные моменты."
  const AngerReply := "Ефесянам 4:26-27 учит нас: 'Гневаясь, не согрешайте: солнце да не зайдет во гневе вашем; и не давайте места диаволу.' Ваши чувства понятны, но позвольте Богу помочь вам преобразовать гнев в прощение и мир. Молитесь о силе отпустить то, что вас тяготит."
  const GeneralReply := "Благодарю вас за то, что поделились этим. Как сказано в Притчах 3:5-6: 'Надейся на Господа всем сердцем твоим, и не полагайся на разум твой. Во всех путях твоих познавай Его, и Он направит стези твои.' Я здесь, чтобы выслушать вас. Продолжайте делиться тем, что на сердце, и вместе мы найдем утешение в Слове Божьем."

  function ClientReplyText(t: Theme): string {
    match t
    case Sin => SinReply
    case Repentance => RepentanceReply
    case Fear => FearReply
    case Loneliness => LonelinessReply
    case Anger => AngerReply
    case General => GeneralReply
  }

  /** `generateAIResponse(input)`. */
  function GenerateAIResponse(input: string): (r: string)
    ensures exists t: Theme :: r == ClientReplyText(t)
  {
    ClientReplyText(ClientTheme(input))
  }

  /** The client's themes sit in cascade order. */
  lemma ClientRulesInOrder()
    ensures Unambiguous(ClientRules)
    ensures forall i :: 0 <= i < |ClientRules| ==> Rank(ClientRules[i].theme) == i
  {
  }

  /** The answer does not depend on letter case. */
  lemma ClientThemeCaseInsensitive(input: string)
    ensures ClientTheme(Lower(input)) == ClientTheme(input)
  {
    LowerIdempotent(input);
  }

  /** A word about sin wins over every later theme, whatever else is said:
      "согрешил ... гнев" is answered as sin, not anger. */
  lemma ClientSinFirst(input: string)
    requires ContainsAny(Lower(input), ["грех", "согрешил", "виновен"])
    ensures ClientTheme(input) == Sin
  {
    ClassifyChoosesFirst(ClientRules, Lower(input), 0);
  }

  /** The anger reply is given exactly when an anger word occurs and no word of
      the four earlier themes does. */
  lemma ClientAngerLast(input: string)
    ensures ClientTheme(input) == Anger
            <==> ContainsAny(Lower(input), ClientRules[4].words)
                 && forall j :: 0 <= j < 4 ==> !ContainsAny(Lower(input), ClientRules[j].words)
  {
    ClassifyChoosesFirst(ClientRules, Lower(input), 4);
  }

  // ---------------------------------------------------------------- server

  /** The word each server rule adds to the client's rule of the same theme. */
  const ServerExtraWords: seq<string> := ["плохо поступил", "каюсь", "переживаю", "никому не нужен", "бесит"]

  /** The server's cascade (index.tsx, `generateSimpleResponse`). */
  const ServerRules: seq<Rule> := [
    Rule(Sin, ["грех", "согрешил", "виновен", "плохо поступил"]),
    Rule(Repentance, ["прост", "раскаи", "сожале", "каюсь"]),
    Rule(Fear, ["страх", "боюсь", "тревож", "переживаю"]),
    Rule(Loneliness, ["одинок", "один", "покину", "никому не нужен"]),
    Rule(Anger, ["злость", "гнев", "ненавижу", "бесит"])
  ]

  /** Each server rule is the client's rule of the same theme plus one word. */
  lemma ServerRulesExtendClient()
    ensures |ServerRules| == |ClientRules| == |ServerExtraWords|
    ensures forall i :: 0 <= i < |ServerRules| ==>
      ServerRules[i] == Rule(ClientRules[i].theme, ClientRules[i].words + [ServerExtraWords[i]])
  {
  }

  /** The theme the server's fallback answers with. */
  function ServerTheme(input: string): Theme {
    Classify(ServerRules, Lower(input))
  }

  /** How many canned replies the server has per theme. */
  function PoolSize(t: Theme): (n: nat)
    ensures n >= 2
  {
    if t == General then 3 else 2
  }

  /** A server reply: its theme and which of the theme's replies was drawn. */
  datatype Reply = Reply(theme: Theme, variant: nat)

  /** `generateSimpleResponse(input)`; `dice` stands for `Math.random()`, the
      reply index being `floor(random * length)`. */
  function GenerateSimpleResponse(input: string, dice: nat): (r: Reply)
    ensures r.variant < PoolSize(r.theme)
  {
    var t := ServerTheme(input);
    Reply(t, dice % PoolSize(t))
  }

  /** Every reply of the chosen theme can be drawn. */
  lemma EveryServerReplyReachable(input: string, v: nat)
    requires v < PoolSize(ServerTheme(input))
    ensures GenerateSimpleResponse(input, v) == Reply(ServerTheme(input), v)
  {
  }

  /** The server settles no later in the cascade than the client would on the
      same input: its extra words can only pull the theme forward. */
  lemma ServerThemeNoLater(input: string)
    ensures Rank(ServerTheme(input)) <= Rank(ClientTheme(input))
  {
    var text := Lower(input);
    ServerRulesExtendClient();
    forall i | 0 <= i < |ClientRules|
      ensures ContainsAny(text, ClientRules[i].words) ==> ContainsAny(text, ServerRules[i].words)
    {
      ContainsAnyAppend(text, ClientRules[i].words, [ServerExtraWords[i]]);
    }
    FirstMatchMonotone(ClientRules, ServerRules, text);
  }

  /** Without any of the server's extra words, server and client agree on the theme. */
  lemma ServerAgreesWithClient(input: string)
    requires forall w :: w in ServerExtraWords ==> !Contains(Lower(input), w)
    ensures ServerTheme(input) == ClientTheme(input)
  {
    var text := Lower(input);
    ServerRulesExtendClient();
    forall i | 0 <= i < |ClientRules|
      ensures ContainsAny(text, ClientRules[i].words) <==> ContainsAny(text, ServerRules[i].words)
    {
      ContainsAnyAppend(text, ClientRules[i].words, [ServerExtraWords[i]]);
      assert !ContainsAny(text, [ServerExtraWords[i]]) by {
        assert ServerExtraWords[i] in ServerExtraWords;
      }
    }
    FirstMatchMonotone(ClientRules, ServerRules, text);
    FirstMatchMonotone(ServerRules, ClientRules, text);
  }
}
