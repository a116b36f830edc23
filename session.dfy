/** The rolling chat history kept per user: a bounded first-in first-out
    window of `{"role": ..., "content": ...}` turns. Pure values only; the
    per-user dictionary that stores the window lives in module Bot. */
module Session {

  /** The role every turn appended by the bot carries. */
  const UserRole: string := "user"

  /** How many turns the stored history keeps (`chat_history[-10:]`). */
  const HistoryLimit: nat := 10

  /** One chat turn, the dictionary `{"role": role, "content": content}`. */
  datatype Turn = Turn(role: string, content: string)

  /** The turn appended for a message typed (or transcribed) by the user. */
  function UserTurn(text: string): (t: Turn)
  {
    Turn(UserRole, text)
  }

  /** Every turn of `s` comes from the user: no assistant turn is present. */
  predicate AllUser(s: seq<Turn>)
  {
    forall i :: 0 <= i < |s| ==> s[i].role == UserRole
  }

  /** Python's slice `s[-n:]` for a positive `n`: the last `n` entries of `s`,
      or all of `s` when it is shorter. */
  function LastN(s: seq<Turn>, n: nat): (r: seq<Turn>)
    requires 0 < n
    ensures |r| == if |s| <= n then |s| else n
    ensures forall i :: 0 <= i < |r| ==> r[i] == s[|s| - |r| + i]
  {
    if |s| <= n then s else s[|s| - n..]
  }

  /** Reference definition of the truncation policy: drop the oldest entry,
      one at a time, until at most `n` remain. */
  function DropOldest(s: seq<Turn>, n: nat): (r: seq<Turn>)
    decreases |s|
  {
    if |s| <= n then s else DropOldest(s[1..], n)
  }

  /** The slice keeps exactly what dropping the oldest entries first keeps. */
  lemma {:induction false} LastNDropsOldestFirst(s: seq<Turn>, n: nat)
    requires 0 < n
    ensures LastN(s, n) == DropOldest(s, n)
  {
    if |s| > n {
      LastNDropsOldestFirst(s[1..], n);
      assert s[1..][|s| - 1 - n..] == s[|s| - n..];
    }
  }

  /** Truncating first and then appending more turns and truncating again
      keeps the same window as truncating once at the end. */
  lemma {:induction false} WindowAbsorbs(s: seq<Turn>, u: seq<Turn>, n: nat)
    requires 0 < n
    ensures LastN(LastN(s, n) + u, n) == LastN(s + u, n)
  {
    var w := LastN(s, n);
    if |s| > n {
      assert |w| == n;
      var a := LastN(w + u, n);
      var b := LastN(s + u, n);
      assert |a| == |b| == n;
      forall i | 0 <= i < n
        ensures a[i] == b[i]
      {
        var j := |u| + i;
        assert a[i] == (w + u)[j];
        assert b[i] == (s + u)[|s| - n + j];
        if j < n {
          assert (w + u)[j] == w[j] == s[|s| - n + j];
        } else {
          assert (w + u)[j] == u[j - n] == (s + u)[|s| - n + j];
        }
      }
    }
  }

  /** The list handle_text sends as model input: the history it read plus
      the new user turn, not truncated. */
  function ModelInput(history: seq<Turn>, text: string): (r: seq<Turn>)
    ensures |r| == |history| + 1
    ensures r[..|history|] == history && r[|history|] == UserTurn(text)
    ensures |history| <= HistoryLimit ==> |r| <= HistoryLimit + 1
  {
    history + [UserTurn(text)]
  }

  /** The history handle_text stores back after a message `text`: the
      last ten entries of the list it sends as model input. */
  function Stored(history: seq<Turn>, text: string): (r: seq<Turn>)
    ensures |r| <= HistoryLimit
    ensures |r| > 0 && r[|r| - 1] == UserTurn(text)
  {
    LastN(ModelInput(history, text), HistoryLimit)
  }

  /** While there is room the new turn is simply appended; once ten turns
      are stored the oldest one is dropped. Either way the stored history
      is a suffix of the model input, in the same order. */
  lemma StoredShape(history: seq<Turn>, text: string)
    ensures |history| < HistoryLimit ==> Stored(history, text) == history + [UserTurn(text)]
    ensures |history| >= HistoryLimit ==>
              Stored(history, text) == history[|history| + 1 - HistoryLimit..] + [UserTurn(text)]
    ensures var r := Stored(history, text);
            r == ModelInput(history, text)[|history| + 1 - |r|..]
  {
    var input := ModelInput(history, text);
    if |history| >= HistoryLimit {
      assert input[|history| + 1 - HistoryLimit..]
          == history[|history| + 1 - HistoryLimit..] + [UserTurn(text)];
    }
  }

  /** Storing a new turn keeps a user-only history user-only. */
  lemma StoredAllUser(history: seq<Turn>, text: string)
    requires AllUser(history)
    ensures AllUser(Stored(history, text))
  {
    var input := history + [UserTurn(text)];
    var r := LastN(input, HistoryLimit);
    assert r == Stored(history, text);
    forall i | 0 <= i < |r|
      ensures r[i].role == UserRole
    {
      var j := |input| - |r| + i;
      assert r[i] == input[j];
      if j < |history| {
        assert input[j] == history[j];
      }
    }
  }

  /** The user turns of a run of messages, in order. */
  function UserTurns(texts: seq<string>): (r: seq<Turn>)
    ensures |r| == |texts|
  {
    if texts == [] then [] else [UserTurn(texts[0])] + UserTurns(texts[1..])
  }

  /** The i-th turn of a run is the user turn of its i-th message. */
  lemma {:induction false} UserTurnsInOrder(texts: seq<string>)
    ensures forall i :: 0 <= i < |texts| ==> UserTurns(texts)[i] == UserTurn(texts[i])
  {
    if texts != [] {
      UserTurnsInOrder(texts[1..]);
      forall i | 0 < i < |texts|
        ensures UserTurns(texts)[i] == UserTurn(texts[i])
      {
        assert UserTurns(texts)[i] == UserTurns(texts[1..])[i - 1];
      }
    }
  }

  /** The history after handling `texts` one after another, starting from
      `history`. */
  function Replay(history: seq<Turn>, texts: seq<string>): (h: seq<Turn>)
    decreases |texts|
  {
    if texts == [] then history else Replay(Stored(history, texts[0]), texts[1..])
  }

  /** Helper: `Stored` with the model input written out. */
  lemma StoredIsWindow(history: seq<Turn>, text: string)
    ensures Stored(history, text) == LastN(history + [UserTurn(text)], HistoryLimit)
  {
  }

  /** However many messages arrive, the stored history is the last ten turns
      of everything seen, in arrival order. */
  lemma {:induction false} ReplayKeepsLastTurns(history: seq<Turn>, texts: seq<string>)
    requires |history| <= HistoryLimit
    ensures Replay(history, texts) == LastN(history + UserTurns(texts), HistoryLimit)
    decreases |texts|
  {
    if texts == [] {
      assert UserTurns(texts) == [] && history + [] == history;
    } else {
      var t := UserTurn(texts[0]);
      var rest := UserTurns(texts[1..]);
      var h1 := Stored(history, texts[0]);
      ReplayKeepsLastTurns(h1, texts[1..]);
      calc == {
        Replay(history, texts);
        Replay(h1, texts[1..]);
        LastN(h1 + rest, HistoryLimit);
        { StoredIsWindow(history, texts[0]); }
        LastN(LastN(history + [t], HistoryLimit) + rest, HistoryLimit);
        { WindowAbsorbs(history + [t], rest, HistoryLimit); }
        LastN(history + [t] + rest, HistoryLimit);
        { assert UserTurns(texts) == [t] + rest;
          assert history + [t] + rest == history + ([t] + rest) by {
            var x, y := history + [t] + rest, history + ([t] + rest);
            forall i | 0 <= i < |x|
              ensures x[i] == y[i]
            {
            }
          }
        }
        LastN(history + UserTurns(texts), HistoryLimit);
      }
    }
  }
}
