/** The gun: a Ready / Empty / Reloading state machine over a magazine and
    a reserve of ammunition, with fire-rate gating on the game clock.

    The class Gun keeps the fields the source mutates. Each of its methods
    is specified by a transition function over a Status value (the same
    fields as a datatype), and the properties of the gun are proved about
    those functions: per step in their ensures clauses, over whole runs of
    operations in the lemmas at the end of the module.

    The game clock (Time.time) is the parameter `now`. The coroutine
    ReloadRoutine is split at its WaitForSeconds into a begin step (taken by
    Reload) and a completion step (ResumeReloadRoutine, which the scheduler
    calls with the current time). */
module Weapon {
  import opened Living

  datatype State = Ready | Empty | Reloading

  /** A gun's inspector settings; they do not change during play. */
  datatype Config = Config(damage: real, magCapacity: int, timeBetFire: real, reloadTime: real)

  /** The fields a gun updates. reloadStart is when the pending
      ReloadRoutine began to wait; it is read only while Reloading. */
  datatype Status = Status(state: State, magAmmo: int, ammoRemain: int, lastFireTime: real, reloadStart: real)

  /** What the ray of one shot struck: nothing within range, or a collider
      that does or does not carry an IDamageable component. */
  datatype Ray = Miss | Struck(damageable: Option<LivingEntity>)

  function Min(a: int, b: int): (m: int) { if a <= b then a else b }

  /** All ammunition the gun holds, chambered or in reserve. */
  function Total(s: Status): (n: int) { s.magAmmo + s.ammoRemain }

  /** The gun's invariant: the magazine within its capacity, a non-negative
      reserve, Ready only with a round chambered, Empty only with none, and
      a pending reload only when it has something to load. */
  predicate Consistent(c: Config, s: Status) {
    && c.magCapacity >= 1
    && 0 <= s.magAmmo <= c.magCapacity
    && s.ammoRemain >= 0
    && (s.state == Ready ==> s.magAmmo >= 1)
    && (s.state == Empty ==> s.magAmmo == 0)
    && (s.state == Reloading ==> s.magAmmo < c.magCapacity && s.ammoRemain > 0)
  }

  /** OnEnable: a full magazine, Ready, and the fire clock reset. */
  function Enabled(c: Config, s: Status): (r: Status)
    ensures r.state == Ready && r.magAmmo == c.magCapacity && r.lastFireTime == 0.0
    ensures r.ammoRemain == s.ammoRemain
    ensures c.magCapacity >= 1 && s.ammoRemain >= 0 ==> Consistent(c, r)
  {
    s.(state := Ready, magAmmo := c.magCapacity, lastFireTime := 0.0)
  }

  /** The guard of Fire. */
  predicate CanFire(c: Config, s: Status, now: real) {
    s.state == Ready && now >= s.lastFireTime + c.timeBetFire
  }

  /** The ammunition and state part of Shot. */
  function ShotTaken(s: Status): (r: Status) {
    var t := s.(magAmmo := s.magAmmo - 1);
    if t.magAmmo <= 0 then t.(state := Empty) else t
  }

  /** The damage Shot hands to what its ray struck. */
  function ShotHit(c: Config, ray: Ray): (h: Option<Hit>)
    ensures h.Some? <==> ray.Struck? && ray.damageable.Some?
    ensures h.Some? ==> h.value == Hit(ray.damageable.value, c.damage)
  {
    match ray
    case Struck(Some(target)) => Some(Hit(target, c.damage))
    case _ => None
  }

  /** Fire: when the guard holds, stamp the time and take one shot;
      otherwise nothing changes. */
  function AfterFire(c: Config, s: Status, now: real): (r: Status)
    ensures !CanFire(c, s, now) ==> r == s
    ensures CanFire(c, s, now) ==>
      && r.lastFireTime == now
      && r.magAmmo == s.magAmmo - 1
      && r.ammoRemain == s.ammoRemain
      && (r.state == Empty <==> r.magAmmo <= 0)
      && (r.state == Ready <==> r.magAmmo > 0)
    ensures Total(r) == Total(s) - (if CanFire(c, s, now) then 1 else 0)
    ensures Consistent(c, s) ==> Consistent(c, r)
  {
    if CanFire(c, s, now) then ShotTaken(s.(lastFireTime := now)) else s
  }

  /** The three refusals of Reload. */
  predicate MayReload(c: Config, s: Status) {
    !(s.state == Reloading || s.ammoRemain <= 0 || s.magAmmo >= c.magCapacity)
  }

  /** ReloadRoutine up to its wait: the gun is Reloading from `now`. */
  function ReloadBegun(s: Status, now: real): (r: Status) {
    s.(state := Reloading, reloadStart := now)
  }

  /** Reload: refused without any change, or a reload begun at once. */
  function AfterReload(c: Config, s: Status, now: real): (r: Status)
    ensures !MayReload(c, s) ==> r == s
    ensures MayReload(c, s) ==>
      && r.state == Reloading
      && r.magAmmo == s.magAmmo && r.ammoRemain == s.ammoRemain
      && r.lastFireTime == s.lastFireTime && r.reloadStart == now
    ensures Consistent(c, s) ==> Consistent(c, r)
  {
    if MayReload(c, s) then ReloadBegun(s, now) else s
  }

  /** The amount ReloadRoutine moves from the reserve into the magazine. */
  function AmmoToFill(c: Config, s: Status): (n: int)
    ensures n == Min(c.magCapacity - s.magAmmo, s.ammoRemain)
    ensures n <= c.magCapacity - s.magAmmo && n <= s.ammoRemain
  {
    var fill := c.magCapacity - s.magAmmo;
    if s.ammoRemain < fill then s.ammoRemain else fill
  }

  /** ReloadRoutine after its wait: load, and Ready again. */
  function ReloadFinished(c: Config, s: Status): (r: Status)
    ensures r.state == Ready
    ensures r.magAmmo == s.magAmmo + Min(c.magCapacity - s.magAmmo, s.ammoRemain)
    ensures Total(r) == Total(s)
    ensures s.magAmmo <= c.magCapacity && s.ammoRemain >= 0 ==>
      r.magAmmo <= c.magCapacity && r.ammoRemain >= 0
    ensures r.lastFireTime == s.lastFireTime
    ensures Consistent(c, s) && s.state == Reloading ==> Consistent(c, r)
  {
    var fill := AmmoToFill(c, s);
    s.(magAmmo := s.magAmmo + fill, ammoRemain := s.ammoRemain - fill, state := Ready)
  }

  /** The pending ReloadRoutine's wait is over. */
  predicate ReloadDue(c: Config, s: Status, now: real) {
    s.state == Reloading && now >= s.reloadStart + c.reloadTime
  }

  /** The scheduler resumes a waiting ReloadRoutine once its time is up. */
  function Resumed(c: Config, s: Status, now: real): (r: Status)
    ensures !ReloadDue(c, s, now) ==> r == s
    ensures ReloadDue(c, s, now) ==> r == ReloadFinished(c, s) && r.state == Ready
    ensures Consistent(c, s) ==> Consistent(c, r)
  {
    if ReloadDue(c, s, now) then ReloadFinished(c, s) else s
  }

  class Gun {
    const config: Config
    var state: State
    var magAmmo: int
    var ammoRemain: int
    var lastFireTime: real
    var reloadStart: real

    function Snapshot(): Status
      reads this
    {
      Status(state, magAmmo, ammoRemain, lastFireTime, reloadStart)
    }

    ghost predicate Valid()
      reads this
    {
      Consistent(config, Snapshot())
    }

    /** Instantiation with the inspector's reserve, followed by OnEnable. */
    constructor (config: Config, ammoRemain: int)
      requires config.magCapacity >= 1 && ammoRemain >= 0
      ensures Valid() && this.config == config
      ensures Snapshot() == Enabled(config, Status(Ready, 0, ammoRemain, 0.0, 0.0))
    {
      this.config := config;
      this.ammoRemain := ammoRemain;
      magAmmo := config.magCapacity;
      state := Ready;
      lastFireTime := 0.0;
      reloadStart := 0.0;
    }

    method OnEnable()
      requires Valid()
      modifies this
      ensures Valid()
      ensures Snapshot() == Enabled(config, old(Snapshot()))
    {
      magAmmo := config.magCapacity;
      state := Ready;
      lastFireTime := 0.0;
    }

    /** Returns the damage the shot dealt, if one was fired and struck an
        IDamageable. */
    method Fire(now: real, ray: Ray) returns (hit: Option<Hit>)
      requires Valid()
      modifies this
      ensures Valid()
      ensures Snapshot() == AfterFire(config, old(Snapshot()), now)
      ensures hit == if CanFire(config, old(Snapshot()), now) then ShotHit(config, ray) else None
    {
      hit := None;
      if state == Ready && now >= lastFireTime + config.timeBetFire {
        lastFireTime := now;
        hit := Shot(ray);
      }
    }

    method Shot(ray: Ray) returns (hit: Option<Hit>)
      modifies this
      ensures Snapshot() == ShotTaken(old(Snapshot()))
      ensures hit == ShotHit(config, ray)
    {
      hit := None;
      if ray.Struck? && ray.damageable.Some? {
        hit := Some(Hit(ray.damageable.value, config.damage));
      }
      magAmmo := magAmmo - 1;
      if magAmmo <= 0 {
        state := Empty;
      }
    }

    method Reload(now: real) returns (ok: bool)
      requires Valid()
      modifies this
      ensures Valid()
      ensures ok == MayReload(config, old(Snapshot()))
      ensures Snapshot() == AfterReload(config, old(Snapshot()), now)
    {
      if state == Reloading || ammoRemain <= 0 || magAmmo >= config.magCapacity {
        return false;
      }
      BeginReloadRoutine(now);
      return true;
    }

    /** ReloadRoutine up to WaitForSeconds(reloadTime). */
    method BeginReloadRoutine(now: real)
      modifies this
      ensures Snapshot() == ReloadBegun(old(Snapshot()), now)
    {
      state := Reloading;
      reloadStart := now;
    }

    /** ReloadRoutine after WaitForSeconds(reloadTime); a call before the
        wait is over, or with no reload pending, changes nothing. */
    method ResumeReloadRoutine(now: real) returns (completed: bool)
      requires Valid()
      modifies this
      ensures Valid()
      ensures completed == ReloadDue(config, old(Snapshot()), now)
      ensures Snapshot() == Resumed(config, old(Snapshot()), now)
    {
      completed := state == Reloading && now >= reloadStart + config.reloadTime;
      if completed {
        var ammoToFill := config.magCapacity - magAmmo;
        if ammoRemain < ammoToFill {
          ammoToFill := ammoRemain;
        }
        magAmmo := magAmmo + ammoToFill;
        ammoRemain := ammoRemain - ammoToFill;
        state := Ready;
      }
    }
  }

  // ---------------------------------------------------------------------
  // Runs of operations

  /** One call into the gun. */
  datatype Op = FireAt(now: real, ray: Ray) | ReloadAt(now: real) | ResumeAt(now: real) | Enable

  function Step(c: Config, s: Status, op: Op): (r: Status) {
    match op
    case FireAt(now, _) => AfterFire(c, s, now)
    case ReloadAt(now) => AfterReload(c, s, now)
    case ResumeAt(now) => Resumed(c, s, now)
    case Enable => Enabled(c, s)
  }

  function Run(c: Config, s: Status, ops: seq<Op>): (r: Status)
    decreases |ops|
  {
    if ops == [] then s else Run(c, Step(c, s, ops[0]), ops[1..])
  }

  /** The number of Fire operations in a run that actually shoot. */
  function ShotsFired(c: Config, s: Status, ops: seq<Op>): (n: nat)
    decreases |ops|
  {
    if ops == [] then 0
    else
      (if ops[0].FireAt? && CanFire(c, s, ops[0].now) then 1 else 0)
      + ShotsFired(c, Step(c, s, ops[0]), ops[1..])
  }

  /** Every run keeps the gun's invariant. */
  lemma {:induction false} RunKeepsConsistent(c: Config, s: Status, ops: seq<Op>)
    requires Consistent(c, s)
    ensures Consistent(c, Run(c, s, ops))
    decreases |ops|
  {
    if ops != [] {
      RunKeepsConsistent(c, Step(c, s, ops[0]), ops[1..]);
    }
  }

  /** Without OnEnable (which refills the magazine from nothing), the gun
      loses exactly one round per shot fired and no other ammunition. */
  lemma {:induction false} RunConservesAmmo(c: Config, s: Status, ops: seq<Op>)
    requires forall i :: 0 <= i < |ops| ==> !ops[i].Enable?
    ensures Total(Run(c, s, ops)) == Total(s) - ShotsFired(c, s, ops)
    decreases |ops|
  {
    if ops != [] {
      RunConservesAmmo(c, Step(c, s, ops[0]), ops[1..]);
    }
  }

  /** Once begun, a reload cannot be cut short: until its wait is over,
      every operation other than OnEnable leaves the gun exactly as it is
      (no shot, no second reload). */
  lemma {:induction false} ReloadUninterruptible(c: Config, s: Status, ops: seq<Op>)
    requires s.state == Reloading
    requires forall i :: 0 <= i < |ops| ==> !ops[i].Enable?
    requires forall i :: 0 <= i < |ops| && ops[i].ResumeAt? ==> ops[i].now < s.reloadStart + c.reloadTime
    ensures Run(c, s, ops) == s
    ensures ShotsFired(c, s, ops) == 0
    decreases |ops|
  {
    if ops != [] {
      assert Step(c, s, ops[0]) == s;
      ReloadUninterruptible(c, s, ops[1..]);
    }
  }

  /** Two trigger pulls less than timeBetFire apart shoot at most once. */
  lemma RapidFireShootsOnce(c: Config, s: Status, t1: real, t2: real, r1: Ray, r2: Ray)
    requires t1 <= t2 < t1 + c.timeBetFire
    ensures ShotsFired(c, s, [FireAt(t1, r1), FireAt(t2, r2)]) <= 1
  {
    var ops := [FireAt(t1, r1), FireAt(t2, r2)];
    var s1 := Step(c, s, ops[0]);
    assert ops[1..] == [FireAt(t2, r2)] && ops[1..][1..] == [];
    assert ShotsFired(c, s1, ops[1..]) == if CanFire(c, s1, t2) then 1 else 0;
    assert CanFire(c, s, t1) ==> !CanFire(c, s1, t2);
  }

  /** The trigger pulls of a run come at least timeBetFire apart, the first
      no earlier than timeBetFire after `last`. */
  predicate SpacedFires(c: Config, last: real, ops: seq<Op>) {
    && (forall i :: 0 <= i < |ops| ==> ops[i].FireAt?)
    && (|ops| > 0 ==> ops[0].now >= last + c.timeBetFire)
    && (forall i :: 0 <= i < |ops| - 1 ==> ops[i + 1].now >= ops[i].now + c.timeBetFire)
  }

  /** Pulling the trigger, at the fire rate, as many times as there are
      rounds chambered empties the magazine and leaves the reserve alone. */
  lemma {:induction false} SpacedFiresEmptyMagazine(c: Config, s: Status, ops: seq<Op>)
    requires Consistent(c, s) && s.state == Ready && s.magAmmo == |ops|
    requires SpacedFires(c, s.lastFireTime, ops)
    ensures Run(c, s, ops).state == Empty
    ensures Run(c, s, ops).magAmmo == 0
    ensures Run(c, s, ops).ammoRemain == s.ammoRemain
    ensures ShotsFired(c, s, ops) == |ops|
    decreases |ops|
  {
    var t := Step(c, s, ops[0]);
    assert CanFire(c, s, ops[0].now);
    if |ops| == 1 {
      assert ops[1..] == [];
    } else {
      assert t.state == Ready && t.lastFireTime == ops[0].now;
      assert SpacedFires(c, t.lastFireTime, ops[1..]) by {
        forall i | 0 <= i < |ops[1..]| - 1
          ensures ops[1..][i + 1].now >= ops[1..][i].now + c.timeBetFire
        {
          assert ops[1..][i] == ops[i + 1] && ops[1..][i + 1] == ops[i + 2];
        }
      }
      SpacedFiresEmptyMagazine(c, t, ops[1..]);
    }
  }

  /** A 25-round magazine with 100 in reserve: 25 shots at the fire rate
      leave it Empty with the reserve intact; the reload that follows is
      accepted and, once its time is up, leaves 25 chambered and 75 in
      reserve. */
  lemma DrainThenReload(c: Config, s: Status, ops: seq<Op>, t: real, t': real)
    requires c.magCapacity == 25 && s.state == Ready && s.magAmmo == 25 && s.ammoRemain == 100
    requires |ops| == 25 && SpacedFires(c, s.lastFireTime, ops)
    requires t' >= t + c.reloadTime
    ensures Run(c, s, ops).state == Empty && Run(c, s, ops).magAmmo == 0
    ensures Run(c, s, ops).ammoRemain == 100
    ensures MayReload(c, Run(c, s, ops))
    ensures var done := Resumed(c, AfterReload(c, Run(c, s, ops), t), t');
      done.state == Ready && done.magAmmo == 25 && done.ammoRemain == 75
  {
    SpacedFiresEmptyMagazine(c, s, ops);
  }
}
