/** One process's managed SQLite operations, with every outcome their opens and closes can have. */
module ManagedStagings {
  import opened GateMachine

  /** How the parts of an operation turn out: the shared gate is granted or contended, the checks
      before and after SQLite hold or raise, the open succeeds, fails or cannot tell whether it
      closed again, and a body can end, raise, or surface another connection's uncertain close. */
  datatype Outcome = Outcome(
    granted: bool, preflight: bool, result: Handle, bodyRaises: bool, bodyUncertain: bool,
    rollbackFails: bool, closeFails: bool, revalidates: bool)

  /** How far publishing a registration gets: its link may exist and a later sync still fail. */
  datatype Publishing = NotLinked | LinkedOnly | Completed

  /** The leases held, the handles not known to be closed and the registrations that exist, at
      one moment. */
  datatype Moment = Moment(held: set<nat>, live: set<nat>, registered: set<nat>)

  ghost predicate Safe(m: Moment) {
    m.live <= m.held && m.registered !! m.live
  }

  class ManagedStaging {
    var held: set<nat>
    var live: set<nat>
    var registered: set<nat>
    var retained: set<nat>
    var active: bool
    var uncertain: bool
    var moments: seq<Moment>

    /** An operation's lease, its handle and its registration go by one name. At every moment so
        far, each live handle had its lease and no registration existed beside a live handle. */
    ghost predicate Valid()
      reads this
    {
      && Safe(Moment(held, live, registered)) && retained <= live
      && (retained != {} ==> uncertain) && (uncertain ==> active)
      && moments != [] && moments[|moments| - 1] == Moment(held, live, registered)
      && forall m | m in moments :: Safe(m)
    }

    constructor ()
      ensures Valid() && held == {} && live == {} && registered == {} && retained == {} && !active && !uncertain
    {
      held, live, registered, retained, active, uncertain := {}, {}, {}, {}, false, false;
      moments := [Moment({}, {}, {})];
    }

    /** One change of the leases, handles or registrations, seen from outside. */
    method Become(next: Moment)
      requires Safe(next) && forall m | m in moments :: Safe(m)
      modifies this`held, this`live, this`registered, this`moments
      ensures Moment(held, live, registered) == next && moments == old(moments) + [next]
      ensures forall m | m in moments :: Safe(m)
    {
      held, live, registered := next.held, next.live, next.registered;
      moments := moments + [next];
    }

    /** `_close_sqlite_then_gate`: the handle first, then the lease; a failed close keeps both. */
    method CloseThenGate(id: nat, connected: bool, release: bool, rollbackFails: bool, closeFails: bool)
      returns (raised: bool)
      requires Valid() && id in held && id !in retained && (connected <==> id in live) && (connected ==> active)
      modifies this
      ensures Valid() && active == old(active) && registered == old(registered) && old(moments) <= moments
      ensures live == if connected && closeFails then old(live) else old(live) - {id}
      ensures retained == if connected && closeFails then old(retained) + {id} else old(retained)
      ensures held == if release && !(connected && closeFails) then old(held) - {id} else old(held)
      ensures uncertain == (old(uncertain) || (connected && closeFails))
      ensures raised <==> connected && (closeFails || rollbackFails)
      ensures !connected && !release ==> moments == old(moments)
    {
      if !connected {
        if release { Become(Moment(held - {id}, live, registered)); }
        return false;
      }
      if closeFails {
        retained, uncertain := retained + {id}, true;
        return true;
      }
      Become(Moment(held, live - {id}, registered));
      if release { Become(Moment(held - {id}, live, registered)); }
      return rollbackFails;
    }

    /** `_managed_staging_connection`: gate, lifetime lock, open, body, and the way out. */
    method ManagedConnection(id: nat, o: Outcome) returns (raised: bool)
      requires Valid() && id !in held && id !in registered && o.result != Closed
      modifies this
      ensures Valid() && registered == old(registered) && old(moments) <= moments
      ensures var began := o.granted && o.preflight && !old(uncertain) && !old(active);
              var kept := began && (o.result == Uncertain || (o.result == Open && (o.bodyUncertain || o.closeFails)));
              && held == (if kept then old(held) + {id} else old(held))
              && live == (if kept then old(live) + {id} else old(live))
              && retained == (if kept then old(retained) + {id} else old(retained))
              && uncertain == (old(uncertain) || kept) && active == (old(active) || kept)
              && (raised <==> !began || o.result != Open || o.bodyRaises || o.bodyUncertain
                              || o.closeFails || o.rollbackFails || !o.revalidates)
      ensures old(uncertain) || old(active) || !o.granted ==> forall m | m in moments[|old(moments)|..] :: id !in m.live
    {
      raised := false;
      if !o.granted { return true; }
      Become(Moment(held + {id}, live, registered));
      if uncertain {
        raised := true;
      } else {
        var started, connected := false, false;
        if !o.preflight || active {
          raised := true;
        } else {
          active, started := true, true;
          if o.result == Open {
            Become(Moment(held, live + {id}, registered));
            connected, raised := true, o.bodyRaises;
            if o.bodyUncertain {
              retained, uncertain, raised := retained + {id}, true, true;
            }
          } else if o.result == Uncertain {
            Become(Moment(held, live + {id}, registered));
            retained, uncertain, raised := retained + {id}, true, true;
          } else {
            raised := true;
          }
        }
        if id !in retained {
          var failed := CloseThenGate(id, connected, false, o.rollbackFails, o.closeFails);
          raised := raised || failed;
          if started && id !in retained {
            active := false;
            raised := raised || !o.revalidates;
          }
        }
      }
      if id !in retained { Become(Moment(held - {id}, live, registered)); }
    }

    /** `bootstrap_registered_staging`: create, close, and only then publish the registration. The
        verification that follows is a managed connection of its own. */
    method Bootstrap(id: nat, o: Outcome, publishing: Publishing) returns (raised: bool)
      requires Valid() && id !in held && id !in registered && o.result != Closed
      modifies this
      ensures Valid() && old(moments) <= moments
      ensures var began := o.granted && o.preflight && !old(uncertain) && !old(active);
              var kept := began && (o.result == Uncertain || (o.result == Open && o.closeFails));
              var closed := began && o.result == Open && !o.closeFails && !o.rollbackFails;
              && held == (if kept then old(held) + {id} else old(held))
              && live == (if kept then old(live) + {id} else old(live))
              && retained == (if kept then old(retained) + {id} else old(retained))
              && uncertain == (old(uncertain) || kept) && active == (old(active) || kept)
              && registered == (if closed && publishing != NotLinked then old(registered) + {id} else old(registered))
              && (raised <==> !(closed && publishing == Completed))
    {
      raised := false;
      if !o.granted { return true; }
      Become(Moment(held + {id}, live, registered));
      if uncertain || !o.preflight || active {
        raised := true;
      } else {
        active := true;
        var started := true;
        if o.result == Open {
          Become(Moment(held, live + {id}, registered));
          raised := CloseThenGate(id, true, false, o.rollbackFails, o.closeFails);
          if !raised {
            active, started := false, false;
            if publishing != NotLinked { Become(Moment(held, live, registered + {id})); }
            raised := publishing != Completed;
          } else if id !in retained {
            // The connection is closed already; closing it again changes nothing.
            var again := CloseThenGate(id, false, false, true, false);
          }
        } else if o.result == Uncertain {
          Become(Moment(held, live + {id}, registered));
          retained, uncertain, raised := retained + {id}, true, true;
        } else {
          raised := true;
        }
        if id !in retained && started { active := false; }
      }
      if id !in retained { Become(Moment(held - {id}, live, registered)); }
    }
  }
}
