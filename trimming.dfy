/** The context-trimming policy: only the most recent user turn of the
    transcript is ever sent to the backend (`get_last_exchange`). */
module Trimming {
  import opened Messages

  /** The one-element list holding the most recent user turn, or [] when the
      transcript has none. The recursion walks from the newest entry back. */
  function LastExchange(messages: seq<Turn>): (r: seq<Turn>)
    ensures messages == [] ==> r == []
    ensures |r| <= 1
    ensures r != [] ==> r[0].role == User && r[0] in messages
    decreases |messages|
  {
    if |messages| == 0 then []
    else if messages[|messages| - 1].role == User then [messages[|messages| - 1]]
    else LastExchange(messages[..|messages| - 1])
  }

  /** The backward scan of `get_last_exchange`: an early return on the
      empty transcript, then a loop from the newest entry to the oldest that
      returns at the first user turn. */
  method GetLastExchange(messages: seq<Turn>) returns (r: seq<Turn>)
    ensures r == LastExchange(messages)
    ensures r == [] <==> !HasUserTurn(messages)
  {
    if |messages| == 0 {
      return [];
    }
    var i := |messages|;
    while i > 0
      invariant 0 <= i <= |messages|
      invariant forall j :: i <= j < |messages| ==> messages[j].role != User
    {
      if messages[i - 1].role == User {
        assert IsLastUserIndex(messages, i - 1);
        LastExchangeFindsLastUser(messages, i - 1);
        LastExchangeEmptyIff(messages);
        return [messages[i - 1]];
      }
      i := i - 1;
    }
    NoUserTurnIsEmpty(messages);
    return [];
  }

  /** Whenever `i` is the most recent user turn, that turn is what is kept. */
  lemma {:induction false} LastExchangeFindsLastUser(messages: seq<Turn>, i: int)
    requires IsLastUserIndex(messages, i)
    ensures LastExchange(messages) == [messages[i]]
    decreases |messages|
  {
    var n := |messages| - 1;
    if i < n {
      var prefix := messages[..n];
      assert messages[n].role != User;
      assert IsLastUserIndex(prefix, i);
      LastExchangeFindsLastUser(prefix, i);
    }
  }

  /** The result is empty exactly when the transcript holds no user turn. */
  lemma {:induction false} LastExchangeEmptyIff(messages: seq<Turn>)
    ensures LastExchange(messages) == [] <==> !HasUserTurn(messages)
    decreases |messages|
  {
    if |messages| > 0 {
      var n := |messages| - 1;
      if messages[n].role == User {
        assert HasUserTurn(messages);
      } else {
        var prefix := messages[..n];
        LastExchangeEmptyIff(prefix);
        if HasUserTurn(messages) {
          var i :| 0 <= i < |messages| && messages[i].role == User;
          assert prefix[i].role == User;
        }
      }
    }
  }

  /** With no user turn anywhere, nothing is kept. */
  lemma NoUserTurnIsEmpty(messages: seq<Turn>)
    requires forall j :: 0 <= j < |messages| ==> messages[j].role != User
    ensures LastExchange(messages) == []
  {
    LastExchangeEmptyIff(messages);
  }

  /** Whatever is kept is the most recent user turn of the transcript: no
      later entry has the user role, and no assistant turn is ever kept. */
  lemma {:induction false} LastExchangeIsLastUser(messages: seq<Turn>)
    ensures LastExchange(messages) != [] ==>
      exists i :: IsLastUserIndex(messages, i) && LastExchange(messages) == [messages[i]]
    decreases |messages|
  {
    if |messages| > 0 {
      var n := |messages| - 1;
      if messages[n].role == User {
        assert IsLastUserIndex(messages, n);
      } else {
        var prefix := messages[..n];
        LastExchangeIsLastUser(prefix);
        if LastExchange(messages) != [] {
          var i :| IsLastUserIndex(prefix, i) && LastExchange(prefix) == [prefix[i]];
          assert IsLastUserIndex(messages, i);
        }
      }
    }
  }

  /** How many turns precede the last user turn does not matter: once the
      tail `recent` holds a user turn, the older turns `older` are ignored. */
  lemma LastExchangeIgnoresHistory(older: seq<Turn>, recent: seq<Turn>)
    requires HasUserTurn(recent)
    ensures LastExchange(older + recent) == LastExchange(recent)
  {
    LastExchangeEmptyIff(recent);
    LastExchangeIsLastUser(recent);
    var i :| IsLastUserIndex(recent, i) && LastExchange(recent) == [recent[i]];
    var whole := older + recent;
    assert whole[|older| + i] == recent[i];
    assert forall j :: |older| + i < j < |whole| ==> whole[j] == recent[j - |older|];
    assert IsLastUserIndex(whole, |older| + i);
    LastExchangeFindsLastUser(whole, |older| + i);
  }
}
