# PESTEL simulator: session turn state machine

The game is a single Streamlit page (`game.py`). A language model narrates a
business simulation: the player is the CEO of an electric-scooter company
entering a fictional country. Over reruns of the page, three session fields
carry the game:

- `messages`: the chat history sent to the model. It starts with one system message.
- `money`: the company's money, in units of ten thousand. It starts at 1000.
- `turn`: the turn counter. It starts at 1.

This project models these fields and the code that changes them:

- initialisation;
- the automatic opening scene;
- the history side of the model helper `get_ai_response`;
- the player's turn, with its keyword rule on money;
- the reset button.

Files:

- `substrings.dfy`, module `Substrings`: Python's `sub in s` on strings, as a
  recursive scan (`Contains`). It is proved equal to the positional definition
  `Mentions` ("`k` occurs at some index").
- `game.dfy`, module `Game`, in two layers:
  - Values: the session as a value (`Snapshot`) and one specification function
    per step (`Initial`, `OpeningSpec`, `PlayerSpec`, `Apply`, `Run`).
    `Wellformed` is the invariant of every session reached by steps that run to completion.
  - The imperative class `Session`: it holds the three fields, and its methods
    update them in place like the page does. Each method's postcondition ties
    the new fields to the specification function of the old ones.

The outside world becomes parameters, bundled in a `Narration`:

- whether an API key was entered (`hasKey`);
- whether the model call raised (`failed`);
- the model's reply text, or the exception's text when the call raised (`text`).

A failed call returns the error prefix followed by that text, as the helper
does. The money rule then reads that string like any other reply.

In `game.py`, money moves only by the keyword rule at game.py:129-132. The
model has no structured reply, no market share and no game-over, because the
file has none.

## Model

| member | source | states |
|---|---|---|
| `Substrings.Contains` | game.py:129-132 | Python's `keyword in reply`: true whenever the keyword is a prefix of the reply, and never when the keyword is longer than the reply. |
| `Substrings.ContainsCorrect` | game.py:129-132 | A left-to-right scan that decides Python's `in` holds exactly when the keyword occurs at some index of the reply. |
| `Game.MoneyDelta` | game.py:129-132 | The change is -50, 0 or +50. It is -50 exactly when the reply mentions `资金减少` or `亏损`, even if it also mentions a profit keyword. It is +50 exactly when it mentions `盈利` or `资金增加` and neither loss keyword. It is 0 exactly when it mentions none of the four. |
| `Game.Initial` | game.py:26-31 | A fresh session has one system message, money 1000 and turn 1, and satisfies the session invariant. |
| `Game.Reply` | game.py:69-89 | What `get_ai_response` returns: the demonstration reply without a key, the error prefix followed by the exception's text when the call raises, and the model's text otherwise. |
| `Game.Asked` | game.py:69-76 | What `get_ai_response` adds to the history: exactly one user entry with the input when a key is present, and nothing without one. |
| `Game.OpeningSpec` | game.py:104-111 | The opening fires only when the history has length 1. It then appends the trigger as a user message only if a key is present, and always appends the reply as an assistant message. Money and turn never change. Otherwise the session is unchanged. |
| `Game.PlayerSpec` | game.py:114-134 | A player turn adds exactly 1 to turn. It changes money by -50, 0 or +50. With a key it appends user(prompt) and then assistant(reply). Without a key it appends only assistant(reply). Earlier entries stay as they were. |
| `Game.OpeningPreserves` | game.py:104-111 | The opening step keeps the session invariant. |
| `Game.PlayerPreserves` | game.py:114-134 | A player turn keeps the session invariant. The invariant has four parts: only the first message is a system message, the history ends on an assistant reply, turn stays at least 1, and \|money − 1000\| ≤ 50·(turn − 1). |
| `Game.ApplyPreserves` | game.py:59-134 | Each of opening, player turn and reset keeps the session invariant. |
| `Game.Apply` | game.py:59-134 | One page run. A reset gives the initial session. An opening or a player turn only appends to the history. An opening leaves money and turn alone. A player turn adds 1 to turn and changes money by -50, 0 or +50. |
| `Game.Run` | game.py:10-134 | A sequence of page runs, applied in order. Turn stays at least 1, and the history keeps the system message first. |
| `Game.RunPreserves` | game.py:26-134 | Any sequence of openings, player turns and resets keeps a well-formed session well-formed. |
| `Game.MoneyBound` | game.py:129-134 | After any run from a fresh session: turn ≥ 1, 1000 − 50·(turn − 1) ≤ money ≤ 1000 + 50·(turn − 1), and the history still opens with the system message. |
| `Game.HistoryAppendOnly` | game.py:76-126 | Without a reset, the history before a run is a prefix of the history after it. Entries are only ever appended. |
| `Game.TurnCountsPlays` | game.py:134 | Without a reset, the turn counter grows by exactly the number of player turns, whatever the replies said. |
| `Game.OpeningOnce` | game.py:104 | Running the opening step a second time changes nothing, whatever the second reply is. |
| `Game.ErrorReplyMoney` | game.py:88-89 | When the call raises, the error prefix adds no keyword. The money change equals the change the exception's own text would cause. |
| `Game.NoKeyReplyNeutral` | game.py:69-70 | The demonstration reply returned without a key contains none of the four keywords. |
| `Game.NoKeyMoneyUnchanged` | game.py:69-70 | Without a key a player turn leaves money unchanged. The turn still advances. |
| `Game.Session.constructor` | game.py:10-31 | Sets the fields to the initial session: one system message, 1000, 1. |
| `Game.Session.Reset` | game.py:59-61 | Clearing the session and rerunning the page gives exactly the initial session again. |
| `Game.Session.GetAiResponse` | game.py:65-89 | Without a key: returns the demonstration reply and leaves the history alone. With a key: appends the user message before the call, then returns the reply, or the error prefix plus the exception's text. Money and turn are outside its frame. |
| `Game.Session.Opening` | game.py:104-111 | The new fields equal `OpeningSpec` of the old ones. It reports whether the opening fired, which happens exactly when the history had length 1. It keeps the invariant. |
| `Game.Session.PlayerStep` | game.py:114-134 | The new fields equal `PlayerSpec` of the old ones. The reply is appended, `money` is changed by the if/elif keyword test, and `turn` is incremented in place. It keeps the invariant. |

## Left out

- Page configuration, the sidebar, metrics, chat rendering, spinners and `st.rerun()` (game.py:6, 33-58, 93-100, 136) are presentation. They do not touch the three fields. The reset button (game.py:59-61) is modelled by `Reset` and `Restart`.
- Reading the key and base URL from secrets or text inputs (game.py:43-51) is configuration I/O. Only the resulting "key present" flag is modelled. An empty string counts as no key.
- The OpenAI client and its `chat.completions.create` call (game.py:72-85) are a network call into a foreign library. The reply, or the exception text, is an input.
- An exception raised while the client is built (game.py:72) is outside the `try` and would stop the page before any append. The model assumes the client is always built.
- A reply whose content is `None` is not modelled: the model's reply is always a string. In Python it would raise at the keyword test.
- The wording of the system prompt (game.py:12-25) is not modelled. `SystemPrompt` is a stand-in constant. The trigger, the demonstration reply and the error prefix are kept word for word, because the money rule reads the reply.
- The page sets up each of the three fields separately, only when it is missing (game.py:10, 28, 30). The model sets them together, because they are only ever missing together: at the first run and after `clear()`.
- `Run` lets events come in any order. This is more permissive than the page, so the invariants it proves also hold for the orders the page produces.
- The model assumes every step runs to completion. Streamlit can stop a running script at its next `st` call when a new widget event arrives. A run stopped at game.py:110 or game.py:123, just after the model call, keeps the user entry appended at game.py:76. It loses the assistant entry (game.py:111, 126) and the money and turn updates (game.py:129-134). The history would then end on an unanswered user entry, which `Wellformed` rules out. Interrupted runs are not modelled.
- The guard `if prompt := ...` at game.py:114 skips the player step when the input is empty. `PlayerSpec` and `Play` take any prompt, including `""`. `st.chat_input` never delivers an empty string, so this case does not arise on the page.
