/**
 * The observable calls the registry makes while starting and stopping a
 * tenant, the order it makes them in, and how a throwing call cuts the
 * sequence short.
 */
module Lifecycle {
  import opened ServiceModel

  /** The three start phases and the three stop phases of hosted services. */
  datatype Phase = Starting | Start | Started | Stopping | Stop | Stopped

  /** One recorded call. */
  datatype Event =
    | Initialized(initializer: nat, code: string) // ITenantInitializer.InitializeAsync
    | Built(serial: nat)                          // BuildServiceProvider
    | Hook(phase: Phase, service: Impl)           // a hosted-service phase call
    | Disposed(serial: nat, asynchronously: bool) // DisposeAsync / Dispose of the container

  /** Position of a phase within its direction: before, during, after. */
  function Step(p: Phase): nat
  {
    match p
    case Starting => 0
    case Start => 1
    case Started => 2
    case Stopping => 0
    case Stop => 1
    case Stopped => 2
  }

  /** The stop phase that corresponds to a start phase. */
  function StopPhaseOf(p: Phase): Phase
  {
    match p
    case Starting => Stopping
    case Start => Stop
    case Started => Stopped
    case _ => p
  }

  /** One phase call per service, in the given order. */
  function PhaseEvents(phase: Phase, services: seq<Impl>): seq<Event>
  {
    seq(|services|, i requires 0 <= i < |services| => Hook(phase, services[i]))
  }

  /**
   * Three phases over a container's hosted services: the first and last for
   * the lifecycle services only, the middle one for all of them.
   */
  function ThreePhases(before: Phase, during: Phase, after: Phase, hosted: seq<Impl>): seq<Event>
  {
    PhaseEvents(before, LifecycleServices(hosted)) + PhaseEvents(during, hosted) + PhaseEvents(after, LifecycleServices(hosted))
  }

  /** Calls made by the three start phases, for the container's hosted services. */
  function StartupEvents(hosted: seq<Impl>): seq<Event>
  {
    ThreePhases(Starting, Start, Started, hosted)
  }

  /** Calls made by the three stop phases: the same services, in the same order. */
  function ShutdownEvents(hosted: seq<Impl>): seq<Event>
  {
    ThreePhases(Stopping, Stop, Stopped, hosted)
  }

  /** None of the calls throws. */
  predicate Faultless(es: seq<Event>, faults: set<Event>)
  {
    forall i :: 0 <= i < |es| ==> es[i] !in faults
  }

  /** The calls made when the first throwing call ends the run: up to and including it. */
  function UntilFault(es: seq<Event>, faults: set<Event>): seq<Event>
  {
    if |es| == 0 then []
    else if es[0] in faults then [es[0]]
    else [es[0]] + UntilFault(es[1..], faults)
  }

  /**
   * A run stops exactly at its first throwing call: it is a prefix of the
   * planned calls, the whole of them iff none throws, and otherwise it ends
   * with a throwing call after only non-throwing ones.
   */
  lemma {:induction false} UntilFaultShape(es: seq<Event>, faults: set<Event>)
    ensures |UntilFault(es, faults)| <= |es|
    ensures UntilFault(es, faults) == es[..|UntilFault(es, faults)|]
    ensures Faultless(es, faults) ==> UntilFault(es, faults) == es
    ensures !Faultless(es, faults) ==>
              var r := UntilFault(es, faults);
              |r| > 0 && r[|r| - 1] in faults && Faultless(r[..|r| - 1], faults)
  {
    if |es| > 0 {
      UntilFaultShape(es[1..], faults);
      if es[0] !in faults {
        var r' := UntilFault(es[1..], faults);
        var r := UntilFault(es, faults);
        assert r == [es[0]] + r';
        if Faultless(es[1..], faults) {
          assert Faultless(es, faults) by {
            forall i | 0 <= i < |es| ensures es[i] !in faults {
              if i > 0 { assert es[i] == es[1..][i - 1]; }
            }
          }
        } else {
          assert r[..|r| - 1] == [es[0]] + r'[..|r'| - 1];
          assert !Faultless(es, faults) by {
            var k :| 0 <= k < |es[1..]| && es[1..][k] in faults;
            assert es[k + 1] in faults;
          }
        }
      } else {
        assert !Faultless(es, faults) by { assert es[0] in faults; }
        assert UntilFault(es, faults)[..0] == [];
      }
    }
  }

  /**
   * What a loop that has made calls `es[..i]` without a throw knows: if
   * `es[i]` throws, the run is `es[..i + 1]`; if the loop is done, the run is
   * all of `es`.
   */
  lemma {:induction false} UntilFaultAt(es: seq<Event>, faults: set<Event>, i: nat)
    requires i <= |es|
    requires Faultless(es[..i], faults)
    ensures i < |es| && es[i] in faults ==> UntilFault(es, faults) == es[..i + 1]
    ensures i == |es| ==> UntilFault(es, faults) == es
  {
    if |es| > 0 && i > 0 {
      assert es[0] == es[..i][0];
      assert es[1..][..i - 1] == es[..i][1..];
      assert Faultless(es[1..][..i - 1], faults) by {
        forall j | 1 <= j < i ensures es[j] !in faults {
          assert es[j] == es[..i][j];
        }
      }
      UntilFaultAt(es[1..], faults, i - 1);
      if i < |es| && es[i] in faults {
        assert es[1..][i - 1] == es[i];
        assert [es[0]] + es[1..][..i] == es[..i + 1];
      }
    }
  }

  /** A run in which nothing throws makes every planned call. */
  lemma UntilFaultFaultless(es: seq<Event>, faults: set<Event>)
    requires Faultless(es, faults)
    ensures UntilFault(es, faults) == es
  {
    assert es[..|es|] == es;
    UntilFaultAt(es, faults, |es|);
  }

  /** A run over two planned blocks reaches the second only if the first does not throw. */
  lemma {:induction false} UntilFaultConcat(a: seq<Event>, b: seq<Event>, faults: set<Event>)
    ensures UntilFault(a + b, faults) ==
              if Faultless(a, faults) then a + UntilFault(b, faults) else UntilFault(a, faults)
  {
    if |a| > 0 {
      assert (a + b)[0] == a[0];
      assert (a + b)[1..] == a[1..] + b;
      UntilFaultConcat(a[1..], b, faults);
      if a[0] !in faults {
        if Faultless(a[1..], faults) {
          assert Faultless(a, faults) by {
            forall i | 0 <= i < |a| ensures a[i] !in faults {
              if i > 0 { assert a[i] == a[1..][i - 1]; }
            }
          }
          assert a == [a[0]] + a[1..];
        } else {
          var k :| 0 <= k < |a[1..]| && a[1..][k] in faults;
          assert a[k + 1] in faults;
        }
      } else {
        assert !Faultless(a, faults) by { assert a[0] in faults; }
      }
    } else {
      assert a + b == b;
    }
  }

  /** Two blocks of calls run without a throw iff each does. */
  lemma FaultlessConcat(a: seq<Event>, b: seq<Event>, faults: set<Event>)
    ensures Faultless(a + b, faults) <==> Faultless(a, faults) && Faultless(b, faults)
  {
    if Faultless(a, faults) && Faultless(b, faults) {
      forall i | 0 <= i < |a + b| ensures (a + b)[i] !in faults {
        if i >= |a| { assert (a + b)[i] == b[i - |a|]; }
      }
    }
    if Faultless(a + b, faults) {
      forall i | 0 <= i < |a| ensures a[i] !in faults {
        assert (a + b)[i] == a[i];
      }
      forall i | 0 <= i < |b| ensures b[i] !in faults {
        assert (a + b)[|a| + i] == b[i];
      }
    }
  }

  /** A run over three planned blocks, as the three phase loops make it. */
  lemma UntilFaultThree(a: seq<Event>, b: seq<Event>, c: seq<Event>, faults: set<Event>)
    ensures Faultless(a + b + c, faults) <==> Faultless(a, faults) && Faultless(b, faults) && Faultless(c, faults)
    ensures UntilFault(a + b + c, faults) ==
              if !Faultless(a, faults) then UntilFault(a, faults)
              else if !Faultless(b, faults) then a + UntilFault(b, faults)
              else a + b + UntilFault(c, faults)
  {
    FaultlessConcat(a, b, faults);
    FaultlessConcat(a + b, c, faults);
    UntilFaultConcat(a, b, faults);
    UntilFaultConcat(a + b, c, faults);
  }

  /** The first block throws: the run ends inside it. */
  lemma ThreeFirstThrows(a: seq<Event>, b: seq<Event>, c: seq<Event>, faults: set<Event>)
    requires !Faultless(a, faults)
    ensures !Faultless(a + b + c, faults) && UntilFault(a + b + c, faults) == UntilFault(a, faults)
  {
    UntilFaultThree(a, b, c, faults);
  }

  /** Only the second block throws: the run is the first block and part of the second. */
  lemma ThreeSecondThrows(a: seq<Event>, b: seq<Event>, c: seq<Event>, faults: set<Event>)
    requires Faultless(a, faults) && !Faultless(b, faults)
    ensures !Faultless(a + b + c, faults) && UntilFault(a + b + c, faults) == a + UntilFault(b, faults)
  {
    UntilFaultThree(a, b, c, faults);
  }

  /** The first two blocks run through: the third decides. */
  lemma ThreeReachesThird(a: seq<Event>, b: seq<Event>, c: seq<Event>, faults: set<Event>)
    requires Faultless(a, faults) && Faultless(b, faults)
    ensures Faultless(a + b + c, faults) <==> Faultless(c, faults)
    ensures UntilFault(a + b + c, faults) == a + b + UntilFault(c, faults)
  {
    UntilFaultThree(a, b, c, faults);
  }

  /** Every call of an earlier phase comes before every call of a later one. */
  predicate PhasesInOrder(es: seq<Event>)
  {
    forall i, j :: 0 <= i < j < |es| && es[i].Hook? && es[j].Hook? ==> Step(es[i].phase) <= Step(es[j].phase)
  }

  /** Start: all `StartingAsync`, then all `StartAsync`, then all `StartedAsync`. */
  lemma StartupPhasesInOrder(hosted: seq<Impl>)
    ensures PhasesInOrder(StartupEvents(hosted))
  {
    var l := LifecycleServices(hosted);
    var es := StartupEvents(hosted);
    forall i | 0 <= i < |es|
      ensures es[i].Hook?
      ensures i < |l| ==> es[i].phase == Starting
      ensures |l| <= i < |l| + |hosted| ==> es[i].phase == Start
      ensures |l| + |hosted| <= i ==> es[i].phase == Started
    {
      if i < |l| {
        assert es[i] == PhaseEvents(Starting, l)[i];
      } else if i < |l| + |hosted| {
        assert es[i] == PhaseEvents(Start, hosted)[i - |l|];
      } else {
        assert es[i] == PhaseEvents(Started, l)[i - |l| - |hosted|];
      }
    }
  }

  /**
   * Stop makes the same calls as start, phase by phase and service by
   * service, in the same (not reversed) order.
   */
  lemma ShutdownMirrorsStartup(hosted: seq<Impl>)
    ensures |ShutdownEvents(hosted)| == |StartupEvents(hosted)|
    ensures forall i :: 0 <= i < |StartupEvents(hosted)| ==>
              StartupEvents(hosted)[i].Hook? &&
              ShutdownEvents(hosted)[i] == Hook(StopPhaseOf(StartupEvents(hosted)[i].phase), StartupEvents(hosted)[i].service)
  {
    var l := LifecycleServices(hosted);
    var up, down := StartupEvents(hosted), ShutdownEvents(hosted);
    forall i | 0 <= i < |up|
      ensures up[i].Hook? && down[i] == Hook(StopPhaseOf(up[i].phase), up[i].service)
    {
      if i < |l| {
        assert up[i] == PhaseEvents(Starting, l)[i];
        assert down[i] == PhaseEvents(Stopping, l)[i];
      } else if i < |l| + |hosted| {
        assert up[i] == PhaseEvents(Start, hosted)[i - |l|];
        assert down[i] == PhaseEvents(Stop, hosted)[i - |l|];
      } else {
        assert up[i] == PhaseEvents(Started, l)[i - |l| - |hosted|];
        assert down[i] == PhaseEvents(Stopped, l)[i - |l| - |hosted|];
      }
    }
  }
}
