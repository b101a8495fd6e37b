/** The chart data of the analytics page (src/pages/BotAnalytics.tsx). */
module BotAnalytics {
  import opened Common

  /** One day of traffic; `responseTime` is in seconds. */
  datatype DailyStat = DailyStat(date: string, messageCount: int, userCount: int, responseTime: real)

  datatype TopQuestion = TopQuestion(question: string, count: int)

  /** A point of the line chart: the "Mensagens" and "Usuários" series. */
  datatype MessagePoint = MessagePoint(date: string, messages: int, users: int)

  /** A bar of the top-questions chart. */
  datatype QuestionBar = QuestionBar(question: string, count: int)

  /** `messageData`: one point per day, in the same order. */
  function MessageData(stats: seq<DailyStat>): seq<MessagePoint>
  {
    if stats == [] then []
    else [MessagePoint(stats[0].date, stats[0].messageCount, stats[0].userCount)] + MessageData(stats[1..])
  }

  /** The line chart has one point per day, in order, carrying that day's
      date, message count and user count. */
  lemma {:induction false} MessageDataSpec(stats: seq<DailyStat>)
    ensures |MessageData(stats)| == |stats|
    ensures forall i :: 0 <= i < |stats| ==>
      MessageData(stats)[i] == MessagePoint(stats[i].date, stats[i].messageCount, stats[i].userCount)
  {
    if stats != [] {
      MessageDataSpec(stats[1..]);
    }
  }

  /** The bar label of a question: at most twenty characters, followed by
      "..." when the question was longer. */
  function QuestionLabel(q: string): (r: string)
    ensures |r| <= 23
    ensures |q| <= 20 ==> r == q
    ensures |q| > 20 ==> |r| == 23 && r[..20] == q[..20] && r[20..] == "..."
  {
    if |q| > 20 then q[..20] + "..." else q
  }

  /** Labelling a label changes nothing. */
  lemma QuestionLabelIdempotent(q: string)
    ensures QuestionLabel(QuestionLabel(q)) == QuestionLabel(q)
  {
    if |q| > 20 {
      var r := QuestionLabel(q);
      assert r[..20] + "..." == r;
    }
  }

  /** Two questions get the same label exactly when they are equal or
      both longer than twenty characters and agree on the first twenty. */
  lemma QuestionLabelCollisions(p: string, q: string)
    ensures QuestionLabel(p) == QuestionLabel(q) <==>
      p == q || (|p| > 20 && |q| > 20 && p[..20] == q[..20])
  {
  }

  /** `topQuestionsData`: one bar per question, in the same order. */
  function TopQuestionsData(qs: seq<TopQuestion>): seq<QuestionBar>
  {
    if qs == [] then []
    else [QuestionBar(QuestionLabel(qs[0].question), qs[0].count)] + TopQuestionsData(qs[1..])
  }

  /** The bar chart has one bar per question, in order, with the question's
      count and its label. */
  lemma {:induction false} TopQuestionsDataSpec(qs: seq<TopQuestion>)
    ensures |TopQuestionsData(qs)| == |qs|
    ensures forall i :: 0 <= i < |qs| ==>
      TopQuestionsData(qs)[i] == QuestionBar(QuestionLabel(qs[i].question), qs[i].count)
  {
    if qs != [] {
      TopQuestionsDataSpec(qs[1..]);
    }
  }
}
