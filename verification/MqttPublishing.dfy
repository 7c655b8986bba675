/** Which publication an MQTT packet id stands for, from the publish call to its completion. */
module MqttPublishing {
  import opened Wrappers
  import opened Collections

  type Token = nat
  type Mid = int

  datatype Refusal = EmptyTopic | NotConfigured | TokenInFlight | CapacityFull | ClientError

  datatype Completion = Completion(token: Token, delivered: bool)

  /** `configured`: a completion handler is set. */
  datatype Callbacks = Callbacks(
    tokenToMid: map<Token, Mid>,
    midToToken: map<Mid, Token>,
    untracked: set<Mid>,
    capacity: nat,
    configured: bool)

  /** The two maps are inverse to each other, within capacity, and apart from the ids nobody waits for. */
  ghost predicate Coherent(c: Callbacks) {
    && (forall t :: t in c.tokenToMid ==> c.tokenToMid[t] in c.midToToken && c.midToToken[c.tokenToMid[t]] == t)
    && (forall m :: m in c.midToToken ==> c.midToToken[m] in c.tokenToMid && c.tokenToMid[c.midToToken[m]] == m)
    && |c.tokenToMid| <= c.capacity
    && (forall m :: m in c.midToToken ==> m !in c.untracked)
    && (c.tokenToMid != map[] ==> c.configured)
  }

  predicate InUse(c: Callbacks, mid: Mid) {
    mid in c.midToToken || mid in c.untracked
  }

  function Refused(c: Callbacks, topic: string, token: Token): Option<Refusal> {
    if topic == "" then Some(EmptyTopic)
    else if !c.configured then Some(NotConfigured)
    else if token in c.tokenToMid then Some(TokenInFlight)
    else if |c.tokenToMid| >= c.capacity then Some(CapacityFull)
    else None
  }

  /** `emplace` on both maps: an entry that is already there stays. */
  function Tracked(c: Callbacks, token: Token, mid: Mid): Callbacks {
    c.(tokenToMid := if token in c.tokenToMid then c.tokenToMid else c.tokenToMid[token := mid],
       midToToken := if mid in c.midToToken then c.midToToken else c.midToToken[mid := token])
  }

  /** Tracking a publication keeps the correspondence exactly when the packet id is unused, section 2.3.1 of MQTT 3.1.1. */
  lemma TrackedKeepsIffUnused(c: Callbacks, topic: string, token: Token, mid: Mid)
    requires Coherent(c) && Refused(c, topic, token).None?
    ensures Coherent(Tracked(c, token, mid)) <==> !InUse(c, mid)
  {
    SizeAfterUpdate(c.tokenToMid, token, mid);
    var t := Tracked(c, token, mid);
    assert t.tokenToMid[token] == mid;
    if mid in c.midToToken {
      assert t.midToToken[mid] != token;
    }
  }

  /** A publication nobody waits for only has to keep off the tracked packet ids; a repeated one of its own kind is harmless. */
  lemma UntrackedKeepsIffNotTracked(c: Callbacks, mid: Mid)
    requires Coherent(c)
    ensures Coherent(c.(untracked := c.untracked + {mid})) <==> mid !in c.midToToken
  {
  }

  lemma ForgottenKeeps(c: Callbacks, mid: Mid)
    requires Coherent(c)
    ensures Coherent(c.(untracked := c.untracked - {mid}))
    ensures forall accepted, completed ::
              Balanced(accepted, completed, c.(untracked := c.untracked - {mid})) == Balanced(accepted, completed, c)
  {
  }

  lemma FinishedKeeps(c: Callbacks, mid: Mid)
    requires Coherent(c) && mid in c.midToToken
    ensures var token := c.midToToken[mid];
            && Coherent(c.(tokenToMid := c.tokenToMid - {token}, midToToken := c.midToToken - {mid}))
            && token in c.tokenToMid && mid !in c.untracked
  {
    SizeAfterRemoval(c.tokenToMid, c.midToToken[mid]);
  }

  /** Every acceptance of a token has been completed once, or its publication is still in flight. */
  ghost predicate Balanced(accepted: multiset<Token>, completed: multiset<Token>, c: Callbacks) {
    accepted == completed + multiset(c.tokenToMid.Keys)
  }

  function TokensOf(completions: seq<Completion>): multiset<Token> {
    if completions == [] then multiset{}
    else TokensOf(completions[..|completions| - 1]) + multiset{completions[|completions| - 1].token}
  }

  lemma TokensMore(completions: seq<Completion>, last: Completion)
    ensures TokensOf(completions + [last]) == TokensOf(completions) + multiset{last.token}
  {
    assert (completions + [last])[..|completions|] == completions;
  }

  lemma KeysGrow(keys: set<Token>, token: Token)
    requires token !in keys
    ensures multiset(keys + {token}) == multiset(keys) + multiset{token}
  {
  }

  lemma BalancedAccepts(accepted: multiset<Token>, completed: multiset<Token>, c: Callbacks, token: Token, mid: Mid)
    requires Balanced(accepted, completed, c) && token !in c.tokenToMid
    ensures Balanced(accepted + multiset{token}, completed, Tracked(c, token, mid))
  {
    KeysGrow(c.tokenToMid.Keys, token);
    assert Tracked(c, token, mid).tokenToMid.Keys == c.tokenToMid.Keys + {token};
  }

  lemma BalancedFinishes(accepted: multiset<Token>, completed: multiset<Token>, c: Callbacks, after: Callbacks, token: Token)
    requires Balanced(accepted, completed, c) && token in c.tokenToMid && after.tokenToMid == c.tokenToMid - {token}
    ensures Balanced(accepted, completed + multiset{token}, after)
  {
    KeysGrow(after.tokenToMid.Keys, token);
    assert c.tokenToMid.Keys == after.tokenToMid.Keys + {token};
  }

  lemma OneLess(accepted: multiset<Token>, completed: multiset<Token>, todo: set<Token>, token: Token)
    requires accepted == completed + multiset(todo) && token in todo
    ensures accepted == (completed + multiset{token}) + multiset(todo - {token})
  {
    KeysGrow(todo - {token}, token);
    assert todo == (todo - {token}) + {token};
  }

  class MqttClient {
    var tokenToMid: map<Token, Mid>
    var midToToken: map<Mid, Token>
    var untracked: set<Mid>
    var capacity: nat
    var configured: bool
    var connected: bool
    /** Every call of the completion handler. */
    var completions: seq<Completion>
    ghost var accepted: multiset<Token>

    function State(): Callbacks
      reads this
    {
      Callbacks(tokenToMid, midToToken, untracked, capacity, configured)
    }

    ghost predicate Valid()
      reads this
    {
      Coherent(State()) && Balanced(accepted, TokensOf(completions), State())
    }

    /** Publishing is configured once, before anything is in flight; the source clears the maps here. */
    constructor (capacity: nat)
      requires capacity > 0
      ensures Valid() && configured && this.capacity == capacity && completions == [] && accepted == multiset{}
    {
      tokenToMid, midToToken, untracked := map[], map[], {};
      this.capacity, configured, connected := capacity, true, false;
      completions, accepted := [], multiset{};
    }

    /** `answer` is the packet id the client library assigned, if it took the message. */
    method PublishCommandSet(token: Token, topic: string, answer: Option<Mid>) returns (result: Result<(), Refusal>)
      requires Valid() && (answer.Some? ==> !InUse(State(), answer.value))
      modifies this
      ensures Valid() && completions == old(completions) && untracked == old(untracked)
      ensures result.Success? <==> Refused(old(State()), topic, token).None? && answer.Some?
      ensures accepted == if result.Success? then old(accepted) + multiset{token} else old(accepted)
      ensures tokenToMid == if result.Success? then old(tokenToMid)[token := answer.value] else old(tokenToMid)
      ensures midToToken == if result.Success? then old(midToToken)[answer.value := token] else old(midToToken)
    {
      if topic == "" {
        return Failure(EmptyTopic);
      }
      if !configured {
        return Failure(NotConfigured);
      }
      if token in tokenToMid {
        return Failure(TokenInFlight);
      }
      if |tokenToMid| >= capacity {
        return Failure(CapacityFull);
      }
      if answer.None? {
        return Failure(ClientError);
      }
      var mid := answer.value;
      TrackedKeepsIffUnused(State(), topic, token, mid);
      BalancedAccepts(accepted, TokensOf(completions), State(), token, mid);
      hide Coherent, Balanced, TokensOf;
      if token !in tokenToMid {
        tokenToMid := tokenToMid[token := mid];
      }
      if mid !in midToToken {
        midToToken := midToToken[mid := token];
      }
      accepted := accepted + multiset{token};
      assert State() == Tracked(old(State()), token, mid);
      return Success(());
    }

    /** Source ACKs and state events: nobody waits for their completion. */
    method PublishUntracked(topic: string, answer: Option<Mid>) returns (result: Result<(), Refusal>)
      requires Valid() && (answer.Some? ==> !InUse(State(), answer.value))
      modifies this`untracked
      ensures Valid() && (result.Success? <==> topic != "" && answer.Some?)
      ensures untracked == if result.Success? then old(untracked) + {answer.value} else old(untracked)
    {
      if topic == "" {
        return Failure(EmptyTopic);
      }
      if answer.None? {
        return Failure(ClientError);
      }
      UntrackedKeepsIffNotTracked(State(), answer.value);
      untracked := untracked + {answer.value};
      return Success(());
    }

    /** A packet id nobody waits for, or an unknown one. */
    method ForgetUntracked(mid: Mid) returns (known: bool)
      requires Valid() && mid !in midToToken
      modifies this`untracked
      ensures Valid() && (known <==> mid in old(untracked)) && untracked == old(untracked) - {mid}
      ensures midToToken == old(midToToken) - {mid}
    {
      assert midToToken - {mid} == midToToken;
      ForgottenKeeps(State(), mid);
      hide Coherent, Balanced, TokensOf;
      known := mid in untracked;
      untracked := untracked - {mid};
    }

    /** The library reports a packet id as published; `known` is false for an unknown or repeated one. */
    method HandlePublish(mid: Mid) returns (known: bool)
      requires Valid()
      modifies this
      ensures Valid() && accepted == old(accepted)
      ensures known <==> InUse(old(State()), mid)
      ensures completions == if mid in old(midToToken) then old(completions) + [Completion(old(midToToken)[mid], true)]
                             else old(completions)
      ensures midToToken == old(midToToken) - {mid} && !InUse(State(), mid)
    {
      if mid !in midToToken {
        known := ForgetUntracked(mid);
        return;
      }
      FinishedKeeps(State(), mid);
      var token := midToToken[mid];
      TokensMore(completions, Completion(token, true));
      BalancedFinishes(accepted, TokensOf(completions), State(),
                       State().(tokenToMid := tokenToMid - {token}, midToToken := midToToken - {mid}), token);
      hide Coherent, Balanced, TokensOf;
      tokenToMid := tokenToMid - {token};
      midToToken := midToToken - {mid};
      completions := completions + [Completion(token, true)];
      known := true;
    }

    /** A failed completion for every token in flight. */
    method FailAll() returns (failed: seq<Completion>)
      ensures TokensOf(failed) == multiset(tokenToMid.Keys)
      ensures forall k :: 0 <= k < |failed| ==> !failed[k].delivered && failed[k].token in tokenToMid
    {
      failed := [];
      var todo := tokenToMid.Keys;
      while todo != {}
        invariant todo <= tokenToMid.Keys
        invariant multiset(tokenToMid.Keys) == TokensOf(failed) + multiset(todo)
        invariant forall k :: 0 <= k < |failed| ==> !failed[k].delivered && failed[k].token in tokenToMid
        decreases todo
      {
        var token :| token in todo;
        TokensMore(failed, Completion(token, false));
        OneLess(multiset(tokenToMid.Keys), TokensOf(failed), todo, token);
        todo := todo - {token};
        failed := failed + [Completion(token, false)];
      }
    }

    /** Every publication in flight fails: afterwards each acceptance has had exactly one completion. */
    method HandleDisconnect()
      requires Valid()
      modifies this
      ensures Valid() && accepted == old(accepted) && !connected
      ensures tokenToMid == map[] && midToToken == map[] && untracked == {}
      ensures old(completions) <= completions && TokensOf(completions) == accepted
      ensures forall k :: |old(completions)| <= k < |completions| ==>
                !completions[k].delivered && completions[k].token in old(tokenToMid)
    {
      connected := false;
      hide Coherent, TokensOf;
      var failed := FailAll();
      AllCompleted(accepted, completions, failed, State());
      hide Balanced;
      tokenToMid, midToToken, untracked := map[], map[], {};
      completions := completions + failed;
      NothingInFlight(State(), accepted, TokensOf(completions));
    }
  }

  lemma Associates(a: multiset<Token>, b: multiset<Token>, c: multiset<Token>)
    ensures (a + b) + c == a + (b + c)
  {
  }

  lemma {:induction false} TokensConcat(a: seq<Completion>, b: seq<Completion>)
    ensures TokensOf(a + b) == TokensOf(a) + TokensOf(b)
  {
    if b == [] {
      assert a + b == a;
    } else {
      var (c, last) := (b[..|b| - 1], b[|b| - 1]);
      assert b == c + [last];
      assert a + b == (a + c) + [last];
      TokensMore(c, last);
      TokensMore(a + c, last);
      TokensConcat(a, c);
      Associates(TokensOf(a), TokensOf(c), multiset{last.token});
    }
  }

  lemma AllCompleted(accepted: multiset<Token>, completions: seq<Completion>, failed: seq<Completion>, c: Callbacks)
    requires Balanced(accepted, TokensOf(completions), c) && TokensOf(failed) == multiset(c.tokenToMid.Keys)
    ensures accepted == TokensOf(completions + failed)
  {
    hide TokensOf;
    TokensConcat(completions, failed);
  }

  lemma NothingInFlight(c: Callbacks, accepted: multiset<Token>, completed: multiset<Token>)
    requires c.tokenToMid == map[] && c.midToToken == map[] && c.untracked == {} && accepted == completed
    ensures Coherent(c) && Balanced(accepted, completed, c)
  {
  }
}
