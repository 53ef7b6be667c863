/** The session state of the PESTEL business-simulation chat game: the chat
    history sent to the language model, the player's money (in units of ten
    thousand) and the turn counter, and the three steps that change them. */
module Game {
  import opened Substrings

  datatype Role = System | User | Assistant

  /** One entry of the chat history sent to the model. */
  datatype Msg = Msg(role: Role, content: string)

  /** Stand-in for the host instructions; their wording is not modelled. */
  const SystemPrompt: string := "PESTEL simulation host instructions"
  const SystemMessage: Msg := Msg(System, SystemPrompt)

  /** The message that asks the model for the opening scene. */
  const InitialTrigger: string := "游戏开始。请给出第一个政治(Political)场景。"

  /** The demonstration reply returned when no API key was entered, kept in
      three pieces so that facts about its characters are cheap to prove. */
  const NoKeyAsk: string := "⚠️ 请在侧边栏输入 API Key 才能启动 AI 大脑。"
  const NoKeyDemo: string := "（如果你没有 Key，这是一个演示回复："
  const NoKeyPretend: string := "请假装你选了 A，但真正的游戏需要 API 支持）"
  const NoKeyReply: string := NoKeyAsk + NoKeyDemo + NoKeyPretend

  /** Put before the exception text when the model call raises. */
  const ErrorPrefix: string := "🚫 AI 连接错误: "

  const InitialMoney: int := 1000
  const MoneyStep: int := 50

  /** Keywords of the money heuristic: the loss pair is tested first. */
  const FundsDecreased: string := "资金减少"
  const Loss: string := "亏损"
  const Profit: string := "盈利"
  const FundsIncreased: string := "资金增加"

  /** The outside world for one model call: was an API key entered, did the
      call raise, and the model's content or the exception's text. */
  datatype Narration = Narration(hasKey: bool, failed: bool, text: string)

  /** The value of the three session fields. */
  datatype Snapshot = Snapshot(messages: seq<Msg>, money: int, turn: int)

  /** The fields as the first page run, or the one after a reset, sets them. */
  function Initial(): (r: Snapshot)
    ensures r.messages == [SystemMessage] && r.messages[0].role == System
    ensures r.money == InitialMoney && r.turn == 1
    ensures Wellformed(r)
  {
    Snapshot([SystemMessage], InitialMoney, 1)
  }

  /** The string the model helper returns for one call. */
  function Reply(n: Narration): (r: string)
    ensures !n.hasKey ==> r == NoKeyReply
    ensures n.hasKey && n.failed ==> ErrorPrefix <= r && r[|ErrorPrefix|..] == n.text
    ensures n.hasKey && !n.failed ==> r == n.text
  {
    if !n.hasKey then NoKeyReply
    else if n.failed then ErrorPrefix + n.text
    else n.text
  }

  /** What the model helper itself adds to the history: the user's message,
      and only when a key is present (before the call, so also on failure). */
  function Asked(userInput: string, hasKey: bool): (r: seq<Msg>)
    ensures |r| == (if hasKey then 1 else 0)
    ensures forall i :: 0 <= i < |r| ==> r[i] == Msg(User, userInput)
  {
    if hasKey then [Msg(User, userInput)] else []
  }

  /** The keyword heuristic on money; loss wins over profit. */
  function MoneyDelta(reply: string): (d: int)
    ensures d == -MoneyStep || d == 0 || d == MoneyStep
    ensures d == -MoneyStep <==> Mentions(reply, FundsDecreased) || Mentions(reply, Loss)
    ensures d == MoneyStep <==>
      !Mentions(reply, FundsDecreased) && !Mentions(reply, Loss) &&
      (Mentions(reply, Profit) || Mentions(reply, FundsIncreased))
    ensures d == 0 <==>
      !Mentions(reply, FundsDecreased) && !Mentions(reply, Loss) &&
      !Mentions(reply, Profit) && !Mentions(reply, FundsIncreased)
  {
    ContainsCorrect(reply, FundsDecreased);
    ContainsCorrect(reply, Loss);
    ContainsCorrect(reply, Profit);
    ContainsCorrect(reply, FundsIncreased);
    if Contains(reply, FundsDecreased) || Contains(reply, Loss) then -MoneyStep
    else if Contains(reply, Profit) || Contains(reply, FundsIncreased) then MoneyStep
    else 0
  }

  /** The opening step: only while the history is the system message alone. */
  function OpeningSpec(s: Snapshot, n: Narration): (t: Snapshot)
    ensures t.money == s.money && t.turn == s.turn
    ensures |s.messages| == 1 && n.hasKey ==>
      t.messages == s.messages + [Msg(User, InitialTrigger), Msg(Assistant, Reply(n))]
    ensures |s.messages| == 1 && !n.hasKey ==>
      t.messages == s.messages + [Msg(Assistant, Reply(n))]
    ensures |s.messages| != 1 ==> t == s
  {
    if |s.messages| == 1 then
      s.(messages := s.messages + Asked(InitialTrigger, n.hasKey) + [Msg(Assistant, Reply(n))])
    else s
  }

  /** One player turn: the exchange is recorded, money follows the keyword
      rule on the reply, and the turn counter advances. */
  function PlayerSpec(s: Snapshot, prompt: string, n: Narration): (t: Snapshot)
    ensures t.turn == s.turn + 1
    ensures t.money - s.money in {-MoneyStep, 0, MoneyStep}
    ensures n.hasKey ==>
      t.messages == s.messages + [Msg(User, prompt), Msg(Assistant, Reply(n))]
    ensures !n.hasKey ==> t.messages == s.messages + [Msg(Assistant, Reply(n))]
  {
    var r := Reply(n);
    Snapshot(s.messages + Asked(prompt, n.hasKey) + [Msg(Assistant, r)],
             s.money + MoneyDelta(r), s.turn + 1)
  }

  /** What every session reached by steps that run to completion satisfies:
      the history starts with the one system message, never ends on an
      unanswered entry, and money has moved at most one step per completed
      turn. */
  ghost predicate Wellformed(s: Snapshot)
  {
    |s.messages| >= 1 && s.messages[0] == SystemMessage &&
    (forall i :: 1 <= i < |s.messages| ==> s.messages[i].role != System) &&
    (|s.messages| > 1 ==> s.messages[|s.messages| - 1].role == Assistant) &&
    s.turn >= 1 &&
    -MoneyStep * (s.turn - 1) <= s.money - InitialMoney <= MoneyStep * (s.turn - 1)
  }

  /** One thing that can happen to a session between two page runs. */
  datatype Event = Open(n: Narration) | Play(prompt: string, n: Narration) | Restart

  lemma OpeningPreserves(s: Snapshot, n: Narration)
    requires Wellformed(s)
    ensures Wellformed(OpeningSpec(s, n))
  {
  }

  lemma PlayerPreserves(s: Snapshot, prompt: string, n: Narration)
    requires Wellformed(s)
    ensures Wellformed(PlayerSpec(s, prompt, n))
  {
  }

  /** One page run's change to the session. */
  function Apply(s: Snapshot, e: Event): (t: Snapshot)
    ensures e.Restart? ==> t == Initial()
    ensures !e.Restart? ==> s.messages <= t.messages
    ensures e.Open? ==> t.money == s.money && t.turn == s.turn
    ensures e.Play? ==> t.turn == s.turn + 1 && t.money - s.money in {-MoneyStep, 0, MoneyStep}
  {
    match e
    case Open(n) => OpeningSpec(s, n)
    case Play(prompt, n) => PlayerSpec(s, prompt, n)
    case Restart => Initial()
  }

  lemma ApplyPreserves(s: Snapshot, e: Event)
    requires Wellformed(s)
    ensures Wellformed(Apply(s, e))
  {
    match e
    case Open(n) => OpeningPreserves(s, n);
    case Play(prompt, n) => PlayerPreserves(s, prompt, n);
    case Restart =>
  }

  /** A sequence of page runs, applied from the left. */
  function Run(s: Snapshot, es: seq<Event>): (r: Snapshot)
    ensures s.turn >= 1 ==> r.turn >= 1
    ensures |s.messages| >= 1 && s.messages[0] == SystemMessage ==>
      |r.messages| >= 1 && r.messages[0] == SystemMessage
    decreases |es|
  {
    if es == [] then s else Run(Apply(s, es[0]), es[1..])
  }

  /** Any sequence of events keeps a well-formed session well-formed. */
  lemma {:induction false} RunPreserves(s: Snapshot, es: seq<Event>)
    requires Wellformed(s)
    ensures Wellformed(Run(s, es))
    decreases |es|
  {
    if es != [] {
      ApplyPreserves(s, es[0]);
      RunPreserves(Apply(s, es[0]), es[1..]);
    }
  }

  /** After any run from a fresh session, money is within one step per
      completed turn of the starting 1000, and the history still opens with
      the single system message. */
  lemma MoneyBound(es: seq<Event>)
    ensures var t := Run(Initial(), es);
      t.turn >= 1 && |t.messages| >= 1 &&
      InitialMoney - MoneyStep * (t.turn - 1) <= t.money <= InitialMoney + MoneyStep * (t.turn - 1) &&
      t.messages[0] == SystemMessage
  {
    RunPreserves(Initial(), es);
  }

  /** Without a reset, entries already in the history are never changed. */
  lemma {:induction false} HistoryAppendOnly(s: Snapshot, es: seq<Event>)
    requires forall i :: 0 <= i < |es| ==> !es[i].Restart?
    ensures s.messages <= Run(s, es).messages
    decreases |es|
  {
    if es != [] {
      var t := Apply(s, es[0]);
      assert s.messages <= t.messages;
      HistoryAppendOnly(t, es[1..]);
    }
  }

  /** The number of player turns in a sequence of events. */
  function Plays(es: seq<Event>): nat
  {
    if es == [] then 0 else (if es[0].Play? then 1 else 0) + Plays(es[1..])
  }

  /** Without a reset, the turn counter advances by exactly the number of
      player turns, whatever the replies were. */
  lemma {:induction false} TurnCountsPlays(s: Snapshot, es: seq<Event>)
    requires forall i :: 0 <= i < |es| ==> !es[i].Restart?
    ensures Run(s, es).turn == s.turn + Plays(es)
    decreases |es|
  {
    if es != [] {
      TurnCountsPlays(Apply(s, es[0]), es[1..]);
    }
  }

  /** Once the opening step has run, running it again changes nothing. */
  lemma OpeningOnce(s: Snapshot, n: Narration, m: Narration)
    ensures OpeningSpec(OpeningSpec(s, n), m) == OpeningSpec(s, n)
  {
  }

  /** On a failed call the error prefix adds no keyword, so only the
      exception's own text can move money. */
  lemma ErrorReplyMoney(n: Narration)
    requires n.hasKey && n.failed
    ensures MoneyDelta(Reply(n)) == MoneyDelta(n.text)
  {
    assert '资' !in ErrorPrefix && '亏' !in ErrorPrefix && '盈' !in ErrorPrefix;
    ContainsAfterPrefix(ErrorPrefix, n.text, FundsDecreased);
    ContainsAfterPrefix(ErrorPrefix, n.text, Loss);
    ContainsAfterPrefix(ErrorPrefix, n.text, Profit);
    ContainsAfterPrefix(ErrorPrefix, n.text, FundsIncreased);
  }

  /** No keyword starts with a character of `s`. */
  ghost predicate AvoidsKeywordStarts(s: string)
  {
    forall i | 0 <= i < |s| :: s[i] != '资' && s[i] != '亏' && s[i] != '盈'
  }

  lemma NoKeyPiecesAvoid()
    ensures AvoidsKeywordStarts(NoKeyAsk)
    ensures AvoidsKeywordStarts(NoKeyDemo)
    ensures AvoidsKeywordStarts(NoKeyPretend)
  {
  }

  /** No keyword's first character occurs in the demonstration reply. */
  lemma NoKeyReplyChars()
    ensures '资' !in NoKeyReply && '亏' !in NoKeyReply && '盈' !in NoKeyReply
  {
    NoKeyPiecesAvoid();
    assert AvoidsKeywordStarts(NoKeyReply);
  }

  /** The demonstration reply contains none of the four keywords. */
  lemma NoKeyReplyNeutral()
    ensures !Contains(NoKeyReply, FundsDecreased) && !Contains(NoKeyReply, Loss)
    ensures !Contains(NoKeyReply, Profit) && !Contains(NoKeyReply, FundsIncreased)
  {
    NoKeyReplyChars();
    AbsentFirstChar(NoKeyReply, FundsDecreased);
    AbsentFirstChar(NoKeyReply, Loss);
    AbsentFirstChar(NoKeyReply, Profit);
    AbsentFirstChar(NoKeyReply, FundsIncreased);
  }

  /** Without a key a player turn leaves money as it was. */
  lemma NoKeyMoneyUnchanged(s: Snapshot, prompt: string, n: Narration)
    requires !n.hasKey
    ensures PlayerSpec(s, prompt, n).money == s.money
  {
    NoKeyReplyNeutral();
  }

  /** The three Streamlit session fields and the code that updates them. */
  class Session {
    var messages: seq<Msg>
    var money: int
    var turn: int

    function Snap(): Snapshot
      reads this
    {
      Snapshot(messages, money, turn)
    }

    ghost predicate Valid()
      reads this
    {
      Wellformed(Snap())
    }

    /** First page run: each missing field gets its starting value. */
    constructor ()
      ensures Snap() == Initial() && Valid()
    {
      messages := [SystemMessage];
      money := InitialMoney;
      turn := 1;
    }

    /** The reset button clears the session; the next page run sets every
        field to its starting value again. */
    method Reset()
      modifies this
      ensures Snap() == Initial() && Valid()
    {
      messages := [SystemMessage];
      money := InitialMoney;
      turn := 1;
    }

    /** The effect on the history of asking the model, and what is returned. */
    method GetAiResponse(userInput: string, n: Narration) returns (response: string)
      modifies this`messages
      ensures messages == old(messages) + Asked(userInput, n.hasKey)
      ensures response == Reply(n)
    {
      if !n.hasKey {
        return NoKeyReply;
      }
      messages := messages + [Msg(User, userInput)];
      if n.failed {
        response := ErrorPrefix + n.text;
      } else {
        response := n.text;
      }
    }

    /** The automatic opening scene, asked for while only the system message
        is in the history. */
    method Opening(n: Narration) returns (fired: bool)
      modifies this
      ensures fired == (|old(messages)| == 1)
      ensures Snap() == OpeningSpec(old(Snap()), n)
      ensures old(Valid()) ==> Valid()
    {
      fired := |messages| == 1;
      if fired {
        var response := GetAiResponse(InitialTrigger, n);
        messages := messages + [Msg(Assistant, response)];
      }
      if old(Valid()) {
        OpeningPreserves(old(Snap()), n);
      }
    }

    /** A player's decision: ask the model, record the reply, apply the
        keyword rule to money and advance the turn. */
    method PlayerStep(prompt: string, n: Narration)
      modifies this
      ensures Snap() == PlayerSpec(old(Snap()), prompt, n)
      ensures old(Valid()) ==> Valid()
    {
      var response := GetAiResponse(prompt, n);
      messages := messages + [Msg(Assistant, response)];
      if Contains(response, FundsDecreased) || Contains(response, Loss) {
        money := money - MoneyStep;
      } else if Contains(response, Profit) || Contains(response, FundsIncreased) {
        money := money + MoneyStep;
      }
      turn := turn + 1;
      if old(Valid()) {
        PlayerPreserves(old(Snap()), prompt, n);
      }
    }
  }
}
