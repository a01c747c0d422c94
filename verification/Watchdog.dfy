/**
 A timer that arms on the first look that finds something down and disarms on
 the first that finds it up again (`link_down_since` in
 apps/tailkvm-ui/src-tauri/src/router.rs, `active_absent_since` in
 apps/tailkvm-ui/src-tauri/src/forwarding.rs).
 */
module Watchdog {
  import opened Basics

  /** One look: was it up, and when. */
  datatype Look = Look(up: bool, now: int)

  function Armed(since: Option<int>, look: Look): Option<int> {
    if look.up then None else if since.Some? then since else Some(look.now)
  }

  function ArmedAfter(looks: seq<Look>): Option<int> {
    if looks == [] then None else Armed(ArmedAfter(looks[..|looks| - 1]), looks[|looks| - 1])
  }

  predicate Expired(since: Option<int>, now: int, limit: int) {
    since.Some? && now - since.value >= limit
  }

  /** The unbroken run of down looks that ends the history starts at i. */
  predicate DownFrom(looks: seq<Look>, i: nat) {
    i < |looks| && (forall j | i <= j < |looks| :: !looks[j].up) && (i > 0 ==> looks[i - 1].up)
  }

  lemma {:induction false} ArmedSinceStart(looks: seq<Look>, i: nat)
    requires DownFrom(looks, i)
    ensures ArmedAfter(looks) == Some(looks[i].now)
  {
    var last := |looks| - 1;
    if i < last {
      assert looks[..last][i] == looks[i];
      assert DownFrom(looks[..last], i);
      ArmedSinceStart(looks[..last], i);
    } else if i > 0 {
      assert looks[..last][last - 1] == looks[last - 1];
      assert ArmedAfter(looks[..last]) == None;
    }
  }

  lemma {:induction false} DownStarts(looks: seq<Look>) returns (i: nat)
    requires looks != [] && !looks[|looks| - 1].up
    ensures DownFrom(looks, i)
  {
    i := |looks| - 1;
    while i > 0 && !looks[i - 1].up
      invariant i < |looks| && forall j | i <= j < |looks| :: !looks[j].up
    {
      i := i - 1;
    }
  }

  /**
   The timer has run out exactly if the unbroken run of down looks that ends the
   history began at least the limit ago.
   */
  lemma {:induction false} ExpiredIff(looks: seq<Look>, now: int, limit: int)
    ensures Expired(ArmedAfter(looks), now, limit)
            <==> exists i: nat :: DownFrom(looks, i) && now - looks[i].now >= limit
  {
    if looks != [] && !looks[|looks| - 1].up {
      var i := DownStarts(looks);
      ArmedSinceStart(looks, i);
      forall j: nat | DownFrom(looks, j) ensures looks[j].now == looks[i].now {
        ArmedSinceStart(looks, j);
      }
    }
  }
}
