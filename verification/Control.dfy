/** The queues through which other goroutines talk to a run. Each method is one
    step under the lock; ghost histories record what was accepted, taken and
    dropped. */
module Control {
  import opened Messages

  // What became of the messages one queue accepted, in order.
  ghost predicate Accounted(accepted: seq<Message>, taken: seq<Message>, waiting: seq<Message>, dropped: seq<Message>, active: bool) {
    var accounted :=
      && accepted == taken + waiting + dropped
      && (active ==> dropped == [])
      && (!active ==> waiting == []);
    accounted
  }

  lemma Accept(accepted: seq<Message>, taken: seq<Message>, waiting: seq<Message>, m: Message)
    requires Accounted(accepted, taken, waiting, [], true)
    ensures Accounted(accepted + [m], taken, waiting + [m], [], true)
  {
    assert taken + waiting + [] + [m] == taken + (waiting + [m]) + [];
  }

  lemma TakeSome(accepted: seq<Message>, taken: seq<Message>, waiting: seq<Message>, n: nat)
    requires Accounted(accepted, taken, waiting, [], true) && n <= |waiting|
    ensures Accounted(accepted, taken + waiting[..n], waiting[n..], [], true)
  {
    assert waiting == waiting[..n] + waiting[n..];
    assert taken + waiting + [] == taken + waiting[..n] + waiting[n..] + [];
  }

  lemma CloseQueue(accepted: seq<Message>, taken: seq<Message>, waiting: seq<Message>, dropped: seq<Message>, active: bool)
    requires Accounted(accepted, taken, waiting, dropped, active)
    ensures Accounted(accepted, taken, [], waiting + dropped, false)
  {
    assert taken + waiting + dropped == taken + [] + (waiting + dropped);
  }

  // Only user messages can be queued.
  ghost predicate AllUsers(ms: seq<Message>) {
    forall i | 0 <= i < |ms| :: ms[i].User?
  }

  // How many messages one taking removes: one, or all.
  function Batch(all: bool, waiting: seq<Message>): (n: nat)
    ensures n <= |waiting|
  {
    if waiting == [] then 0 else if all then |waiting| else 1
  }

  class RunControl {
    const allSteering: bool
    const allFollowUp: bool
    var active: bool
    var steering: seq<Message>
    var followUp: seq<Message>
    ghost var acceptedSteering: seq<Message>
    ghost var takenSteering: seq<Message>
    ghost var droppedSteering: seq<Message>
    ghost var acceptedFollowUp: seq<Message>
    ghost var takenFollowUp: seq<Message>
    ghost var droppedFollowUp: seq<Message>
    // Somebody else closed the control while it was active.
    ghost var closedOutside: bool

    /** Nothing accepted is forgotten: it was taken, it waits, or it was dropped by
        closing the run from outside. */
    ghost predicate Valid()
      reads this
    {
      && Accounted(acceptedSteering, takenSteering, steering, droppedSteering, active)
      && Accounted(acceptedFollowUp, takenFollowUp, followUp, droppedFollowUp, active)
      && AllUsers(steering) && AllUsers(followUp)
    }

    constructor (allSteering: bool, allFollowUp: bool)
      ensures Valid() && active && !closedOutside && takenSteering == [] && takenFollowUp == []
      ensures acceptedSteering == [] && acceptedFollowUp == []
    {
      this.allSteering, this.allFollowUp, active := allSteering, allFollowUp, true;
      steering, followUp := [], [];
      acceptedSteering, takenSteering, droppedSteering := [], [], [];
      acceptedFollowUp, takenFollowUp, droppedFollowUp := [], [], [];
      closedOutside := false;
    }

    method EnqueueSteering(m: Message) returns (ok: bool)
      requires Valid() && m.User?
      modifies this`steering, this`acceptedSteering
      ensures Valid() && ok == active
      ensures acceptedSteering == old(acceptedSteering) + (if ok then [m] else [])
      ensures steering == old(steering) + (if ok then [m] else [])
    {
      if !active {
        return false;
      }
      Accept(acceptedSteering, takenSteering, steering, m);
      steering, acceptedSteering := steering + [m], acceptedSteering + [m];
      ok := true;
    }

    method EnqueueFollowUp(m: Message) returns (ok: bool)
      requires Valid() && m.User?
      modifies this`followUp, this`acceptedFollowUp
      ensures Valid() && ok == active
      ensures acceptedFollowUp == old(acceptedFollowUp) + (if ok then [m] else [])
      ensures followUp == old(followUp) + (if ok then [m] else [])
    {
      if !active {
        return false;
      }
      Accept(acceptedFollowUp, takenFollowUp, followUp, m);
      followUp, acceptedFollowUp := followUp + [m], acceptedFollowUp + [m];
      ok := true;
    }

    /** Steering between two turns of a run that goes on anyway. */
    method TakeSteering() returns (ms: seq<Message>)
      requires Valid()
      modifies this`steering, this`takenSteering
      ensures Valid() && AllUsers(ms) && takenSteering == old(takenSteering) + ms
      ensures ms <= old(steering) && steering == old(steering)[|ms|..]
      ensures !active ==> ms == []
      ensures active ==> |ms| == if allSteering || |old(steering)| <= 1 then |old(steering)| else 1
    {
      if !active || |steering| == 0 {
        return [];
      }
      var n := Batch(allSteering, steering);
      TakeSome(acceptedSteering, takenSteering, steering, n);
      ms := steering[..n];
      steering, takenSteering := steering[n..], takenSteering + ms;
    }

    /** Where the run would end: what is waiting goes on, steering first; with
        nothing waiting the run stops accepting, in the same step. */
    method TakeNextAtNaturalStop() returns (ms: seq<Message>, closed: bool, ghost fromSteering: bool)
      requires Valid()
      modifies this`steering, this`followUp, this`takenSteering, this`takenFollowUp, this`active
      ensures Valid()
      ensures closed <==> !old(active) || (old(steering) == [] && old(followUp) == [])
      ensures closed ==> !active && ms == [] && takenSteering == old(takenSteering) && takenFollowUp == old(takenFollowUp)
      ensures closed && old(active) ==> acceptedSteering == takenSteering && acceptedFollowUp == takenFollowUp
      ensures !closed ==> active && ms != [] && AllUsers(ms)
      ensures !closed ==> (fromSteering <==> old(steering) != [])
      ensures !closed && fromSteering ==>
                && ms <= old(steering) && steering == old(steering)[|ms|..] && followUp == old(followUp)
                && |ms| == if allSteering then |old(steering)| else 1
      ensures !closed && fromSteering ==> takenSteering == old(takenSteering) + ms && takenFollowUp == old(takenFollowUp)
      ensures !closed && !fromSteering ==>
                && ms <= old(followUp) && followUp == old(followUp)[|ms|..]
                && |ms| == if allFollowUp then |old(followUp)| else 1
      ensures !closed && !fromSteering ==>
                && old(steering) == [] && takenFollowUp == old(takenFollowUp) + ms && takenSteering == old(takenSteering)
                && acceptedSteering == takenSteering
    {
      if !active {
        return [], true, false;
      }
      if |steering| > 0 {
        var n := Batch(allSteering, steering);
        TakeSome(acceptedSteering, takenSteering, steering, n);
        ms := steering[..n];
        steering, takenSteering := steering[n..], takenSteering + ms;
        return ms, false, true;
      }
      if |followUp| > 0 {
        var n := Batch(allFollowUp, followUp);
        TakeSome(acceptedFollowUp, takenFollowUp, followUp, n);
        ms := followUp[..n];
        followUp, takenFollowUp := followUp[n..], takenFollowUp + ms;
        assert takenSteering + [] + [] == takenSteering;
        return ms, false, false;
      }
      active := false;
      assert takenSteering + [] + [] == takenSteering && takenFollowUp + [] + [] == takenFollowUp;
      ms, closed, fromSteering := [], true, false;
    }

    /** Closing drops what is still waiting. */
    method Close()
      requires Valid()
      modifies this`active, this`steering, this`followUp, this`droppedSteering, this`droppedFollowUp
      ensures Valid() && !active && steering == [] && followUp == []
      ensures !old(active) ==> droppedSteering == old(droppedSteering) && droppedFollowUp == old(droppedFollowUp)
      ensures droppedSteering == old(steering) + old(droppedSteering)
      ensures droppedFollowUp == old(followUp) + old(droppedFollowUp)
    {
      CloseQueue(acceptedSteering, takenSteering, steering, droppedSteering, active);
      CloseQueue(acceptedFollowUp, takenFollowUp, followUp, droppedFollowUp, active);
      droppedSteering, droppedFollowUp := steering + droppedSteering, followUp + droppedFollowUp;
      active, steering, followUp := false, [], [];
    }

    /** Any number of steps of other goroutines. Only here can the control be closed
        from outside. */
    method Outside()
      requires Valid()
      modifies this
      ensures Valid()
      ensures takenSteering == old(takenSteering) && takenFollowUp == old(takenFollowUp)
      ensures active ==> old(active)
      ensures old(acceptedSteering) <= acceptedSteering && old(acceptedFollowUp) <= acceptedFollowUp
      ensures closedOutside == (old(closedOutside) || (old(active) && !active))
      ensures !old(active) ==> acceptedSteering == old(acceptedSteering) && acceptedFollowUp == old(acceptedFollowUp)
    {
      var n: nat := *;
      while n > 0
        invariant Valid()
        invariant takenSteering == old(takenSteering) && takenFollowUp == old(takenFollowUp)
        invariant active ==> old(active)
        invariant old(acceptedSteering) <= acceptedSteering && old(acceptedFollowUp) <= acceptedFollowUp
        invariant closedOutside == (old(closedOutside) || (old(active) && !active))
        invariant !old(active) ==> acceptedSteering == old(acceptedSteering) && acceptedFollowUp == old(acceptedFollowUp)
      {
        var choice: nat, m: Message := *, *;
        if choice == 0 {
          closedOutside := closedOutside || active;
          Close();
        } else if m.User? {
          if choice == 1 {
            var ok := EnqueueSteering(m);
          } else {
            var ok := EnqueueFollowUp(m);
          }
        }
        n := n - 1;
      }
    }
  }
}
