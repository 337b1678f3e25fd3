/**
  The FIFO run scheduler of api/scheduler.py and its cancellation tokens. The
  functions are the effect of one lock region or one queue operation each.
 */
module Scheduler {
  import opened Wrappers
  import opened RunStore

  type TokenId = nat

  datatype Job = Job(run: RunId, token: TokenId)

  // `issued` counts the tokens created so far; token ids are below it.
  datatype Sched = Sched(
    accepting: bool,
    tokens: map<RunId, TokenId>,
    queue: seq<Option<Job>>,   // `None` is a poison pill
    issued: TokenId,
    cancelled: set<TokenId>)

  const STARTED := Sched(true, map[], [], 0, {})

  predicate CanRegister(s: Sched, run: RunId) {
    s.accepting && run !in s.tokens
  }

  function Register(s: Sched, run: RunId): Sched {
    s.(tokens := s.tokens[run := s.issued], issued := s.issued + 1)
  }

  function Put(s: Sched, entry: Option<Job>): Sched {
    s.(queue := s.queue + [entry])
  }

  function Take(s: Sched): Sched
    requires s.queue != []
  {
    s.(queue := s.queue[1..])
  }

  function Fire(s: Sched, token: TokenId): Sched {
    s.(cancelled := s.cancelled + {token})
  }

  function StopAccepting(s: Sched): Sched {
    s.(accepting := false)
  }

  function Drop(s: Sched, run: RunId): Sched {
    s.(tokens := s.tokens - {run})
  }

  function Pills<T>(n: nat): seq<Option<T>> {
    seq(n, i => None)
  }

  class CancellationToken {
    var cancelled: bool

    constructor ()
      ensures !cancelled
    {
      cancelled := false;
    }
  }

  datatype Entry = Entry(run: RunId, token: CancellationToken)

  // All tokens of these runs set, and a pill for each worker: what `close` adds up to.
  function ShutDown(s: Sched, workers: nat): Sched {
    StopAccepting(s).(cancelled := s.cancelled + s.tokens.Values, queue := s.queue + Pills(workers))
  }

  // The scheduler object as one thread sees it. `View` is the value the steps
  // of RunProtocol work on; `ids` numbers the token objects in the order issued.
  class RunScheduler {
    const workers: nat
    var accepting: bool
    var tokens: map<RunId, CancellationToken>
    var queue: seq<Option<Entry>>
    ghost var ids: map<CancellationToken, TokenId>
    ghost var issued: TokenId

    // Every registered run has its own token, and every token its own number.
    ghost predicate Valid()
      reads this
    {
      && 1 <= workers
      && (forall a, b :: a in tokens && b in tokens && tokens[a] == tokens[b] ==> a == b)
      && (forall run :: run in tokens ==> tokens[run] in ids)
      && (forall i :: 0 <= i < |queue| && queue[i].Some? ==> queue[i].value.token in ids)
      && (forall t :: t in ids ==> ids[t] < issued)
      && (forall t, u :: t in ids && u in ids && ids[t] == ids[u] ==> t == u)
    }

    ghost function JobOf(entry: Option<Entry>): Option<Job>
      requires entry.Some? ==> entry.value.token in ids
      reads this
    {
      if entry.None? then None else Some(Job(entry.value.run, ids[entry.value.token]))
    }

    ghost function Numbers(): map<RunId, TokenId>
      requires Valid()
      reads this
    {
      map run | run in tokens :: ids[tokens[run]]
    }

    ghost function Jobs(): seq<Option<Job>>
      requires Valid()
      reads this
    {
      seq(|queue|, i requires 0 <= i < |queue| reads this requires Valid() => JobOf(queue[i]))
    }

    ghost function Set(): set<TokenId>
      reads this, ids.Keys
    {
      set t | t in ids && t.cancelled :: ids[t]
    }

    ghost function View(): Sched
      requires Valid()
      reads this, ids.Keys
    {
      Sched(accepting, Numbers(), Jobs(), issued, Set())
    }

    constructor (workers: nat)
      requires 1 <= workers
      ensures Valid() && this.workers == workers && View() == STARTED
      ensures accepting && tokens == map[] && queue == []
    {
      this.workers := workers;
      accepting, tokens, queue := true, map[], [];
      ids, issued := map[], 0;
    }

    // A number for a new token changes neither the set tokens nor the jobs.
    twostate lemma Numbered(new token: CancellationToken)
      requires old(Valid()) && Valid() && token !in old(ids) && ids == old(ids)[token := old(issued)] && !token.cancelled
      requires queue == old(queue) && forall t :: t in old(ids) ==> t.cancelled == old(t.cancelled)
      ensures Set() == old(Set()) && Jobs() == old(Jobs())
    {
    }

    twostate lemma Registered(run: RunId, new token: CancellationToken)
      requires old(Valid()) && Valid() && token !in old(ids) && ids == old(ids)[token := old(issued)]
      requires tokens == old(tokens)[run := token]
      ensures Numbers() == old(Numbers())[run := old(issued)]
    {
    }

    twostate lemma Forgotten(run: RunId)
      requires old(Valid()) && Valid() && ids == old(ids) && tokens == old(tokens) - {run}
      ensures Numbers() == old(Numbers()) - {run}
    {
    }

    // The lock region of `submit`. The `RuntimeError` and `ValueError` outcomes
    // are the result `null`.
    method Admit(run: RunId) returns (token: CancellationToken?)
      requires Valid()
      modifies this`tokens, this`ids, this`issued
      ensures Valid() && (token != null) == (old(accepting) && run !in old(tokens))
      ensures (token != null) == CanRegister(old(View()), run)
      ensures token == null ==> View() == old(View()) && tokens == old(tokens) && ids == old(ids)
      ensures token != null ==>
        && fresh(token) && !token.cancelled && tokens == old(tokens)[run := token]
        && ids == old(ids)[token := old(issued)] && View() == Register(old(View()), run)
    {
      token := null;
      if accepting && run !in tokens {
        token := new CancellationToken();
        tokens := tokens[run := token];
        ids, issued := ids[token := issued], issued + 1;
        Numbered(token);
        Registered(run, token);
      }
    }

    // `submit`: the lock region, then the queue. Another thread may come in
    // between; RunProtocol takes the two as two steps.
    method Submit(run: RunId) returns (token: CancellationToken?)
      requires Valid()
      modifies this
      ensures Valid() && accepting == old(accepting)
      ensures (token != null) == (old(accepting) && run !in old(tokens))
      ensures token != null ==>
        && fresh(token) && !token.cancelled
        && tokens == old(tokens)[run := token] && queue == old(queue) + [Some(Entry(run, token))]
        && View() == Put(Register(old(View()), run), Some(Job(run, old(View()).issued)))
      ensures token == null ==> tokens == old(tokens) && queue == old(queue) && View() == old(View())
    {
      token := Admit(run);
      if token != null {
        ghost var admitted := View();
        queue := queue + [Some(Entry(run, token))];
        assert Jobs() == admitted.queue + [Some(Job(run, old(issued)))];
      }
    }

    method Cancel(run: RunId) returns (found: bool)
      requires Valid()
      modifies tokens.Values
      ensures Valid() && found == (run in tokens)
      ensures forall other :: other in tokens ==>
        tokens[other].cancelled == (old(tokens[other].cancelled) || other == run)
      ensures View() == if found then Fire(old(View()), old(View()).tokens[run]) else old(View())
    {
      found := run in tokens;
      if found {
        assert tokens[run] in tokens.Values;
        tokens[run].cancelled := true;
        FiredOne(old(Set()), tokens[run]);
      }
    }

    // What setting one token adds to the numbers set.
    twostate lemma FiredOne(before: set<TokenId>, new token: CancellationToken)
      requires old(Valid()) && Valid() && token in ids && token.cancelled && unchanged(this)
      requires before == old(Set())
      requires forall t :: t in ids && t != token ==> t.cancelled == old(t.cancelled)
      ensures Set() == before + {ids[token]}
    {
    }

    // What setting all registered tokens adds to the numbers set.
    twostate lemma FiredAll()
      requires old(Valid()) && Valid() && tokens == old(tokens) && ids == old(ids)
      requires forall t :: t in ids ==> t.cancelled == (old(t.cancelled) || t in tokens.Values)
      ensures Set() == old(Set()) + Numbers().Values
    {
      forall n
        ensures n in Set() <==> n in old(Set()) || n in Numbers().Values
      {
        if n in Set() {
          var t :| t in ids && t.cancelled && ids[t] == n;
          if t in tokens.Values {
            var run :| run in tokens && tokens[run] == t;
            assert Numbers()[run] == n;
          }
        }
        if n in Numbers().Values {
          var run :| run in tokens && Numbers()[run] == n;
          assert tokens[run] in tokens.Values && tokens[run] in ids;
        }
      }
    }

    twostate lemma PillsAdded(n: nat)
      requires old(Valid()) && Valid() && ids == old(ids) && queue == old(queue) + Pills(n)
      ensures Jobs() == old(Jobs()) + Pills(n)
    {
    }

    twostate lemma ShutsDown()
      requires old(Valid()) && Valid() && tokens == old(tokens) && ids == old(ids) && issued == old(issued)
      requires !accepting && queue == old(queue) + Pills(workers)
      requires forall t :: t in ids ==> t.cancelled == (old(t.cancelled) || t in tokens.Values)
      ensures View() == ShutDown(old(View()), workers)
    {
      FiredAll();
      PillsAdded(workers);
      assert Numbers() == old(Numbers());
    }

    // The first loop of `close`, over the tokens listed under the lock.
    method FireAll()
      requires Valid()
      modifies tokens.Values
      ensures Valid()
      ensures forall t :: t in ids ==> t.cancelled == (old(t.cancelled) || t in tokens.Values)
    {
      var pending := tokens.Keys;
      ghost var fired: set<CancellationToken> := {};
      while pending != {}
        invariant pending <= tokens.Keys && fired <= tokens.Values
        invariant forall run :: run in tokens ==> run in pending || tokens[run] in fired
        invariant forall t :: t in ids ==> t.cancelled == (old(t.cancelled) || t in fired)
        decreases |pending|
      {
        var run :| run in pending;
        assert tokens[run] in tokens.Values;
        tokens[run].cancelled := true;
        fired := fired + {tokens[run]};
        pending := pending - {run};
      }
      assert fired == tokens.Values;
    }

    // The second loop of `close`.
    method PutPills()
      requires Valid()
      modifies this`queue
      ensures Valid() && queue == old(queue) + Pills(workers)
    {
      for i := 0 to workers
        invariant queue == old(queue) + Pills(i)
      {
        queue := queue + [None];
        assert Pills<Entry>(i + 1) == Pills(i) + [None];
      }
    }

    // A second close changes nothing.
    method Close()
      requires Valid()
      modifies this, tokens.Values
      ensures Valid() && !accepting && tokens == old(tokens)
      ensures queue == old(queue) + if old(accepting) then Pills<Entry>(workers) else []
      ensures forall run :: run in tokens ==> tokens[run].cancelled == (old(tokens[run].cancelled) || old(accepting))
      ensures View() == if old(accepting) then ShutDown(old(View()), workers) else old(View())
    {
      if !accepting {
        return;
      }
      accepting := false;
      FireAll();
      PutPills();
      ShutsDown();
    }

    // The head of the queue and whether its callback may start: `None` ends the
    // worker thread, a cancelled token skips the callback.
    method Next() returns (entry: Option<Entry>, starts: bool)
      requires Valid() && queue != []
      modifies this`queue
      ensures Valid() && [entry] + queue == old(queue)
      ensures starts == (entry.Some? && !entry.value.token.cancelled)
      ensures View() == Take(old(View()))
    {
      entry := queue[0];
      queue := queue[1..];
      starts := entry.Some? && !entry.value.token.cancelled;
      assert Jobs() == old(Jobs())[1..];
    }

    method Forget(run: RunId)
      requires Valid()
      modifies this`tokens
      ensures Valid() && tokens == old(tokens) - {run}
      ensures View() == Drop(old(View()), run)
    {
      tokens := tokens - {run};
      Forgotten(run);
    }
  }
}
