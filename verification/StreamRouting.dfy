/** The dispatcher's routing and the consumers keep the invariant of the request path. */
module StreamRouting {
  import opened Messages
  import opened StreamSystem
  import opened StreamInvariant
  import opened StreamVisits

  // A step downstream of the scheduler: what it may change, and that it loses nothing unrecorded.
  ghost predicate Downstream(s: System, s': System) {
    && s'.sched == s.sched && s'.links == s.links
    && s'.streams <= s.streams && s.lost <= s'.lost && (s.stopped ==> s'.stopped)
    && (forall id :: id in s'.lost || Flow(s', id) == Flow(s, id))
    && (forall id :: id in s'.lost && id !in s.lost ==> Flow(s, id) != [])
  }

  lemma DownstreamRunning(scripts: Scripts, s: System, s': System)
    requires Downstream(s, s') && RunningOk(scripts, s)
    ensures RunningOk(scripts, s')
  {
    forall w: nat | w in s'.sched.active && w < |s'.links| ensures RunOkAt(scripts, s', w) {
      assert RunOkAt(scripts, s, w);
    }
  }

  lemma DownstreamUntouched(s: System, s': System)
    requires Downstream(s, s') && UntouchedOk(s)
    ensures UntouchedOk(s')
  {
  }

  lemma DownstreamKeeps(scripts: Scripts, s: System, s': System)
    requires SystemInv(scripts, s) && Downstream(s, s') && Control(s') && LostOk(s')
    ensures SystemInv(scripts, s')
  {
    DownstreamRunning(scripts, s, s');
    DownstreamUntouched(s, s');
  }

  /* ---- What the head of the batch says about its request ---- */

  function HeadId(s: System): RequestId
    requires s.hand != [] && s.hand[0].requestId.Some?
  {
    s.hand[0].requestId.value
  }

  // All that a request with messages downstream can have downstream.
  lemma FlowShape(scripts: Scripts, s: System, id: RequestId)
    requires SystemInv(scripts, s) && id !in s.lost && Flow(s, id) != []
    ensures id in s.sched.submitted && Faithful(Flow(s, id), scripts(id))
    ensures ScriptOk(scripts(id), id, true) || ScriptOk(scripts(id), id, false)
  {
    if IsRunning(s.sched, id) {
      var w: nat :| w in s.sched.active && s.sched.active[w] == id;
      assert RunOkAt(scripts, s, w);
    }
  }

  // While a message of a stream is still in the batch, its end cannot be in the stream queue.
  lemma NoEndYet(scripts: Scripts, s: System)
    requires SystemInv(scripts, s) && s.hand != [] && s.hand[0].requestId.Some? && HeadId(s) !in s.lost
    ensures NoEnd(At(s.consumed, HeadId(s))) && NoEnd(At(s.queues, HeadId(s)))
  {
    var id := HeadId(s);
    var flow := Flow(s, id);
    FlowShape(scripts, s, id);
    PassedHasNoEnd(At(s.consumed, id), At(s.queues, id), s.hand[0],
                   For(id, s.hand[1..]) + For(id, s.sched.events), flow, scripts(id), id);
  }

  lemma PassedHasNoEnd(c: seq<Message>, q: seq<Message>, m: Message, rest: seq<Message>,
                       flow: seq<Message>, script: seq<Message>, id: RequestId)
    requires flow == c + q + [m] + rest && Faithful(flow, script)
    requires ScriptOk(script, id, true) || ScriptOk(script, id, false)
    ensures NoEnd(c) && NoEnd(q)
  {
    var passed := c + q;
    assert passed < script by {
      if !(flow <= script) {
        assert passed <= flow[..|flow| - 1];
      }
    }
    ProperPrefixHasNoEnd(passed, script, id);
    assert forall k :: 0 <= k < |c| ==> c[k] == passed[k];
    assert forall k :: 0 <= k < |q| ==> q[k] == passed[|c| + k];
  }

  // The messages of a stream are of the kinds that the router puts on stream queues.
  lemma HeadStreamable(scripts: Scripts, s: System)
    requires SystemInv(scripts, s) && s.hand != [] && s.hand[0].requestId.Some?
    requires HeadId(s) !in s.lost && HeadId(s) in s.streams
    ensures Streamable(s.hand[0].kind)
  {
    var id := HeadId(s);
    var flow := Flow(s, id);
    FlowShape(scripts, s, id);
    var k := |At(s.consumed, id)| + |At(s.queues, id)|;
    assert flow[k] == s.hand[0];
    if flow <= scripts(id) {
      assert flow[k] == scripts(id)[k];
    } else {
      assert k < |flow| - 1 ==> flow[..|flow| - 1][k] == scripts(id)[k];
    }
  }

  /* ---- The steps ---- */

  // The head is discarded, and that is on record.
  lemma DiscardKeeps(scripts: Scripts, s: System, s': System)
    requires SystemInv(scripts, s) && s.hand != [] && s.hand[0].requestId.Some?
    requires s' == s.(hand := s.hand[1..], lost := s.lost + {HeadId(s)}, pc := s'.pc,
                      futures := s'.futures, resolved := s'.resolved)
    requires s'.pc.Looking? || s'.pc.Popping?
    requires HeadId(s) in s.streams ==> s.stopped || !Streamable(s.hand[0].kind)
    ensures SystemInv(scripts, s')
  {
    var id := HeadId(s);
    if id !in s.lost {
      NoEndYet(scripts, s);
      if id in s.streams && !s.stopped { HeadStreamable(scripts, s); }
    }
    DiscardDownstream(s, s', id);
    DownstreamKeeps(scripts, s, s');
  }

  lemma DiscardDownstream(s: System, s': System, id: RequestId)
    requires LostOk(s) && s.hand != [] && s.hand[0].requestId == Some(id)
    requires s' == s.(hand := s.hand[1..], lost := s.lost + {id}, pc := s'.pc, futures := s'.futures, resolved := s'.resolved)
    requires id !in s.lost ==> NoEnd(At(s.consumed, id)) && NoEnd(At(s.queues, id)) && (id in s.streams ==> s.stopped)
    ensures LostOk(s') && Downstream(s, s')
  {
    assert For(id, s.hand)[0] == s.hand[0];
    forall x | x != id ensures Flow(s', x) == Flow(s, x) { assert For(x, s.hand) == For(x, s.hand[1..]); }
  }

  lemma SkipKeeps(scripts: Scripts, s: System)
    requires SystemInv(scripts, s) && s.pc.Looking? && s.hand != [] && s.hand[0].requestId.None?
    ensures SystemInv(scripts, s.(hand := s.hand[1..]))
  {
    var s' := s.(hand := s.hand[1..]);
    assert Downstream(s, s') by {
      forall x ensures Flow(s', x) == Flow(s, x) { assert For(x, s.hand) == For(x, s.hand[1..]); }
    }
    DownstreamKeeps(scripts, s, s');
  }

  lemma LookKeeps(scripts: Scripts, s: System)
    requires SystemInv(scripts, s) && s.pc.Looking?
    ensures SystemInv(scripts, NextLook(s))
  {
    LookCases(s, NextLook(s));
    LookedKeeps(scripts, s, NextLook(s));
  }

  // What the dispatcher may do with the head of its batch.
  ghost predicate Looked(s: System, s': System) {
    || (s.hand == [] && s' == s.(pc := AtTop))
    || (s.hand != [] && s.hand[0].requestId.None? && s' == s.(hand := s.hand[1..]))
    || (s.hand != [] && s.hand[0].requestId.Some? && s' == s.(pc := Checking))
    || (s.hand != [] && s.hand[0].requestId.Some? && (HeadId(s) in s.streams ==> !Streamable(s.hand[0].kind))
        && s' == s.(hand := s.hand[1..], lost := s.lost + {HeadId(s)}, futures := s'.futures, resolved := s'.resolved))
  }

  lemma LookCases(s: System, s': System)
    requires s.pc.Looking? && s' == NextLook(s)
    ensures Looked(s, s')
  {
  }

  lemma LookedKeeps(scripts: Scripts, s: System, s': System)
    requires SystemInv(scripts, s) && s.pc.Looking? && Looked(s, s')
    ensures SystemInv(scripts, s')
  {
    if s'.hand == s.hand {
      PcKeeps(scripts, s, s'.pc);
    } else if s.hand[0].requestId.None? {
      SkipKeeps(scripts, s);
    } else {
      DiscardKeeps(scripts, s, s');
    }
  }

  lemma CheckKeeps(scripts: Scripts, s: System)
    requires SystemInv(scripts, s) && s.pc.Checking? && s.hand != []
    ensures SystemInv(scripts, NextCheck(s))
  {
    if s.stopped || HeadId(s) !in s.streams {
      DiscardKeeps(scripts, s, NextCheck(s));
    } else {
      assert HeadId(s) !in s.lost;
      PcKeeps(scripts, s, Putting);
    }
  }

  lemma PutFlow(s: System, s': System, id: RequestId, x: RequestId)
    requires s.hand != [] && s.hand[0].requestId == Some(id)
    requires s' == s.(queues := s.queues[id := At(s.queues, id) + [s.hand[0]]], hand := s.hand[1..], pc := s'.pc)
    ensures Flow(s', x) == Flow(s, x)
  {
    assert s.hand == [s.hand[0]] + s.hand[1..];
    var c, q, m, tail, e := At(s.consumed, x), At(s.queues, x), s.hand[0], For(x, s.hand[1..]), For(x, s.sched.events);
    if x == id {
      assert For(x, s.hand) == [m] + tail;
      assert c + (q + [m]) + tail + e == c + q + ([m] + tail) + e;
    } else {
      assert For(x, s.hand) == tail;
    }
  }

  lemma PutKeeps(scripts: Scripts, s: System, s': System)
    requires SystemInv(scripts, s) && s.pc.Putting?
    requires var id := HeadId(s);
      s' == s.(queues := s.queues[id := At(s.queues, id) + [s.hand[0]]], hand := s.hand[1..], pc := s'.pc)
    requires s'.pc.Popping? || s'.pc.Looking?
    ensures SystemInv(scripts, s')
  {
    forall x ensures Flow(s', x) == Flow(s, x) { PutFlow(s, s', HeadId(s), x); }
    assert LostOk(s') by {
      forall x | x in s'.lost
        ensures NoEnd(At(s'.consumed, x)) && NoEnd(At(s'.queues, x)) && (x in s'.streams ==> s'.stopped)
      {
        assert x != HeadId(s);
      }
    }
    DownstreamKeeps(scripts, s, s');
  }

  lemma AbandonKeeps(scripts: Scripts, s: System)
    requires SystemInv(scripts, s) && s.pc.Putting?
    ensures SystemInv(scripts, NextGiveUp(s))
  {
    NoEndYet(scripts, s);
    GiveUpDownstream(s, NextGiveUp(s), HeadId(s));
    DownstreamKeeps(scripts, s, NextGiveUp(s));
  }

  lemma GiveUpDownstream(s: System, s': System, id: RequestId)
    requires LostOk(s) && s.hand != [] && s.hand[0].requestId == Some(id) && s' == NextGiveUp(s)
    requires NoEnd(At(s.consumed, id)) && NoEnd(At(s.queues, id))
    ensures LostOk(s') && Downstream(s, s')
  {
    assert For(id, s.hand)[0] == s.hand[0];
    assert forall x :: Flow(s', x) == Flow(s, x);
  }

  // The dispatcher empties the queue of a stream it gave up, and leaves an error in it.
  lemma DrainKeeps(scripts: Scripts, s: System, s': System)
    requires SystemInv(scripts, s) && s.pc.Draining?
    requires s' == s.(queues := s.queues[HeadId(s) := At(s'.queues, HeadId(s))], hand := s'.hand, pc := s'.pc)
    requires NoEnd(At(s'.queues, HeadId(s)))
    requires (s'.hand == s.hand && s'.pc == s.pc) || (s'.hand == s.hand[1..] && s'.pc.Looking?)
    ensures SystemInv(scripts, s')
  {
    DrainDownstream(s, s', HeadId(s));
    DownstreamKeeps(scripts, s, s');
  }

  lemma DrainDownstream(s: System, s': System, id: RequestId)
    requires LostOk(s) && s.hand != [] && s.hand[0].requestId == Some(id) && id in s.lost
    requires s' == s.(queues := s.queues[id := At(s'.queues, id)], hand := s'.hand, pc := s'.pc)
    requires NoEnd(At(s'.queues, id)) && (s'.hand == s.hand || s'.hand == s.hand[1..])
    ensures LostOk(s') && Downstream(s, s')
  {
    forall x ensures x in s'.lost || Flow(s', x) == Flow(s, x) {
      if x != id { assert For(x, s.hand) == For(x, s.hand[1..]); }
    }
  }

  lemma ConsumeKeeps(scripts: Scripts, s: System, id: RequestId)
    requires SystemInv(scripts, s) && At(s.queues, id) != []
    ensures SystemInv(scripts, s.(queues := s.queues[id := At(s.queues, id)[1..]],
                                  consumed := s.consumed[id := At(s.consumed, id) + [At(s.queues, id)[0]]]))
  {
    var s' := s.(queues := s.queues[id := At(s.queues, id)[1..]],
                 consumed := s.consumed[id := At(s.consumed, id) + [At(s.queues, id)[0]]]);
    ConsumeDownstream(s, s', id);
    DownstreamKeeps(scripts, s, s');
  }

  lemma ConsumeDownstream(s: System, s': System, id: RequestId)
    requires LostOk(s) && At(s.queues, id) != []
    requires s' == s.(queues := s.queues[id := At(s.queues, id)[1..]],
                      consumed := s.consumed[id := At(s.consumed, id) + [At(s.queues, id)[0]]])
    ensures LostOk(s') && Downstream(s, s')
  {
    forall x ensures Flow(s', x) == Flow(s, x) {
      assert At(s'.consumed, x) + At(s'.queues, x) == At(s.consumed, x) + At(s.queues, x);
    }
    forall x | x in s'.lost ensures NoEnd(At(s'.consumed, x)) && NoEnd(At(s'.queues, x)) {
      assert NoEnd(At(s.consumed, x)) && NoEnd(At(s.queues, x));
    }
  }

  lemma PopKeeps(scripts: Scripts, s: System, id: RequestId)
    requires SystemInv(scripts, s) && s.pc.Popping?
    ensures SystemInv(scripts, s.(streams := s.streams - {id}, pc := Looking))
  {
    var s' := s.(streams := s.streams - {id}, pc := Looking);
    assert Downstream(s, s') by { assert forall x :: Flow(s', x) == Flow(s, x); }
    DownstreamKeeps(scripts, s, s');
  }

  lemma StopKeeps(scripts: Scripts, s: System)
    requires SystemInv(scripts, s)
    ensures SystemInv(scripts, s.(stopped := true))
  {
    var s' := s.(stopped := true);
    assert Downstream(s, s') by { assert forall x :: Flow(s', x) == Flow(s, x); }
    DownstreamKeeps(scripts, s, s');
  }
}
