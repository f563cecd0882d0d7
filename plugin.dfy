/**
 * The plugin object: it admits experience events as drops, keeps the
 * pending drops in a priority queue ordered by skill rank, remembers the
 * last experience total of every skill, keeps the set of filtered skill
 * names, and knows which of the two overlay variants is in use.
 */
module XpDropsPlugin {
  import opened Wrappers
  import opened Skills
  import opened Styles

  /** One experience drop waiting to be animated. */
  datatype XpDrop = XpDrop(skill: Skill, amount: Int32, style: XpDropStyle, fake: bool)

  /** The host's game states. */
  datatype GameState =
    | Unknown | Starting | LoginScreen | LoginScreenAuthenticator
    | Loading | LoggedIn | ConnectionLost | Hopping

  /** The two overlay variants: a fixed box, or one that follows the player. */
  datatype OverlayKind = FixedBox | FollowPlayer

  const ConfigGroup: string := "CustomizableXPDrops"
  const AttachToPlayerKey: string := "attachToPlayer"
  const SkillsToFilterKey: string := "skillsToFilter"

  /** Synthetic drops of this amount or more are host placeholders. */
  const FakeXpLimit: int := 20000000

  // ---------------------------------------------------------------------
  // Admission

  /** The experience gained between two totals, as a Java `int` subtraction. */
  function Delta(prev: Int32, cur: Int32): (d: Int32)
    ensures d == Wrap32(cur - prev)
    ensures 0 <= prev && 0 <= cur ==> d == cur - prev
  {
    Wrap32(cur - prev)
  }

  /** A stat change is admitted when a baseline exists, the total grew, and
      the skill is not filtered. */
  predicate AdmitsStat(prev: Int32, cur: Int32, filtered: set<string>, skill: Skill)
  {
    prev > 0 && Delta(prev, cur) > 0 && FilterKey(skill) !in filtered
  }

  /** A synthetic drop is admitted below the placeholder limit, for an
      unfiltered skill; its amount is not checked for positivity. */
  predicate AdmitsFake(xp: Int32, filtered: set<string>, skill: Skill)
  {
    xp < FakeXpLimit && FilterKey(skill) !in filtered
  }

  /** The drops a stat change from `prev` to `cur` queues. */
  function StatDrops(prev: Int32, cur: Int32, filtered: set<string>, skill: Skill, style: XpDropStyle): (ds: seq<XpDrop>)
    ensures |ds| <= 1
    ensures |ds| == 1 <==> AdmitsStat(prev, cur, filtered, skill)
    ensures |ds| == 1 ==> ds[0].skill == skill && ds[0].amount > 0 && ds[0].style == style && !ds[0].fake
    ensures |ds| == 1 ==> ds[0].amount == Delta(prev, cur)
    ensures |ds| == 1 && 0 <= cur ==> ds[0].amount == cur - prev
  {
    if AdmitsStat(prev, cur, filtered, skill) then [XpDrop(skill, Delta(prev, cur), style, false)] else []
  }

  /** The drops a synthetic event queues. */
  function FakeDrops(xp: Int32, filtered: set<string>, skill: Skill, style: XpDropStyle): (ds: seq<XpDrop>)
    ensures |ds| <= 1
    ensures |ds| == 1 <==> xp < FakeXpLimit && FilterKey(skill) !in filtered
    ensures |ds| == 1 ==> ds[0] == XpDrop(skill, xp, style, true)
  {
    if AdmitsFake(xp, filtered, skill) then [XpDrop(skill, xp, style, true)] else []
  }

  /** The placeholder limit: 19,999,999 passes and 20,000,000 does not. */
  lemma FakeLimitBoundary(filtered: set<string>, skill: Skill, style: XpDropStyle)
    requires FilterKey(skill) !in filtered
    ensures FakeDrops(19999999, filtered, skill, style) == [XpDrop(skill, 19999999, style, true)]
    ensures FakeDrops(20000000, filtered, skill, style) == []
  {
  }

  // ---------------------------------------------------------------------
  // Filter configuration

  /** The filter set built from the comma-separated entries of the
      `skillsToFilter` option: every entry lower-cased, plus "runecraft"
      when "runecrafting" is among them (never the other way round). */
  function BuildFilter(entries: seq<string>): (r: set<string>)
    ensures forall s :: s in r <==>
              (exists e :: e in entries && Lower(e) == s) ||
              (s == "runecraft" && exists e :: e in entries && Lower(e) == "runecrafting")
  {
    var lowered := set e | e in entries :: Lower(e);
    if "runecrafting" in lowered then lowered + {"runecraft"} else lowered
  }

  /** Configuring "Runecrafting", in any letter case, filters the skill
      the host calls Runecraft, for real and synthetic drops alike. */
  lemma RunecraftingAliasFilters(entries: seq<string>, prev: Int32, cur: Int32, style: XpDropStyle)
    requires exists e :: e in entries && Lower(e) == "runecrafting"
    ensures FilterKey(Runecraft) in BuildFilter(entries)
    ensures StatDrops(prev, cur, BuildFilter(entries), Runecraft, style) == []
    ensures FakeDrops(cur, BuildFilter(entries), Runecraft, style) == []
  {
  }

  /** The alias goes one way only: "runecraft" does not filter "runecrafting". */
  lemma AliasIsOneWay()
    ensures "runecraft" in BuildFilter(["runecraft"])
    ensures "runecrafting" !in BuildFilter(["runecraft"])
  {
    assert Lower("runecraft") == "runecraft";
  }

  /** A skill whose name is configured, in any letter case, never yields a drop. */
  lemma ConfiguredSkillIsSuppressed(entries: seq<string>, skill: Skill, prev: Int32, cur: Int32, style: XpDropStyle)
    requires exists e :: e in entries && Lower(e) == FilterKey(skill)
    ensures StatDrops(prev, cur, BuildFilter(entries), skill, style) == []
    ensures FakeDrops(cur, BuildFilter(entries), skill, style) == []
  {
  }

  // ---------------------------------------------------------------------
  // Successive stat changes of one skill

  /** The drops queued by successive stat changes of `skill` to `totals`,
      starting from the last known total `prev`. */
  function ReplaySkill(skill: Skill, filtered: set<string>, style: XpDropStyle, prev: Int32, totals: seq<Int32>): seq<XpDrop>
    decreases |totals|
  {
    if totals == [] then []
    else StatDrops(prev, totals[0], filtered, skill, style) + ReplaySkill(skill, filtered, style, totals[0], totals[1..])
  }

  /** Number of strict increases between neighbours of `s`. */
  function StrictIncreases(s: seq<int>): nat
    decreases |s|
  {
    if |s| < 2 then 0 else (if s[0] < s[1] then 1 else 0) + StrictIncreases(s[1..])
  }

  ghost predicate NonDecreasing(s: seq<int>)
  {
    forall i :: 0 < i < |s| ==> s[i - 1] <= s[i]
  }

  function TotalAmount(ds: seq<XpDrop>): int
    decreases |ds|
  {
    if ds == [] then 0 else ds[0].amount + TotalAmount(ds[1..])
  }

  /** From a positive baseline, non-decreasing totals of an unfiltered skill
      give one drop per strict increase, each positive, and the amounts add
      up to the total gain. */
  lemma {:induction false} ReplayCountsGains(skill: Skill, filtered: set<string>, style: XpDropStyle, prev: Int32, totals: seq<Int32>)
    requires prev > 0 && FilterKey(skill) !in filtered
    requires NonDecreasing([prev] + totals)
    ensures |ReplaySkill(skill, filtered, style, prev, totals)| == StrictIncreases([prev] + totals)
    ensures TotalAmount(ReplaySkill(skill, filtered, style, prev, totals)) == ([prev] + totals)[|totals|] - prev
    ensures forall d :: d in ReplaySkill(skill, filtered, style, prev, totals) ==>
              d.skill == skill && d.amount > 0 && d.style == style && !d.fake
    decreases |totals|
  {
    if totals != [] {
      var t, rest := totals[0], totals[1..];
      NonDecreasingStep(prev, totals);
      ReplayCountsGains(skill, filtered, style, t, rest);
      ReplayStep(skill, filtered, style, prev, totals);
      var tail := ReplaySkill(skill, filtered, style, t, rest);
      assert StrictIncreases([prev] + totals) == (if prev < t then 1 else 0) + StrictIncreases([t] + rest) by {
        assert ([prev] + totals)[1..] == [t] + rest;
      }
      assert ([t] + rest)[|rest|] == ([prev] + totals)[|totals|];
      if prev < t {
        var d := XpDrop(skill, t - prev, style, false);
        assert ([d] + tail)[1..] == tail;
      } else {
        assert [] + tail == tail;
      }
    }
  }

  lemma NonDecreasingStep(prev: int, totals: seq<int>)
    requires totals != [] && NonDecreasing([prev] + totals)
    ensures prev <= totals[0] && NonDecreasing([totals[0]] + totals[1..])
  {
    var all := [prev] + totals;
    assert all[0] <= all[1];
    assert [totals[0]] + totals[1..] == all[1..];
  }

  /** One step of a non-decreasing replay: a drop of exactly the gain, or none. */
  lemma ReplayStep(skill: Skill, filtered: set<string>, style: XpDropStyle, prev: Int32, totals: seq<Int32>)
    requires totals != [] && 0 < prev <= totals[0] && FilterKey(skill) !in filtered
    ensures ReplaySkill(skill, filtered, style, prev, totals) ==
            (if prev < totals[0] then [XpDrop(skill, totals[0] - prev, style, false)] else []) +
            ReplaySkill(skill, filtered, style, totals[0], totals[1..])
  {
  }

  /** From a positive baseline to a total no smaller, an unfiltered skill's
      drop is exactly the gain, or there is none when nothing was gained. */
  lemma StatDropsOfGain(prev: Int32, cur: Int32, filtered: set<string>, skill: Skill, style: XpDropStyle)
    requires 0 < prev <= cur && FilterKey(skill) !in filtered
    ensures StatDrops(prev, cur, filtered, skill, style) ==
            (if prev < cur then [XpDrop(skill, cur - prev, style, false)] else [])
  {
  }

  /** Replaying from position `i` after `queued`: the first change's drops,
      then the replay of the rest from that change's total. */
  lemma ReplayFirst(skill: Skill, filtered: set<string>, style: XpDropStyle, queued: seq<XpDrop>, prev: Int32,
                    totals: seq<Int32>, i: int)
    requires 0 <= i < |totals|
    ensures queued + ReplaySkill(skill, filtered, style, prev, totals[i..]) ==
            (queued + StatDrops(prev, totals[i], filtered, skill, style)) +
            ReplaySkill(skill, filtered, style, totals[i], totals[i + 1..])
  {
    assert totals[i..][1..] == totals[i + 1..];
  }

  /** `a` and `b` agree everywhere except possibly at index `k`. */
  ghost predicate SameExcept(a: seq<Int32>, b: seq<Int32>, k: int)
  {
    |a| == |b| && 0 <= k < |a| && forall j :: 0 <= j < |a| && j != k ==> a[j] == b[j]
  }

  lemma SameExceptAfterUpdate(a: seq<Int32>, b: seq<Int32>, k: int, v: Int32)
    requires SameExcept(a, b, k)
    ensures SameExcept(a[k := v], b, k)
  {
  }

  lemma SameExceptIsUpdate(a: seq<Int32>, b: seq<Int32>, k: int)
    requires SameExcept(a, b, k)
    ensures a == b[k := a[k]]
  {
  }

  /** A filtered skill yields no drops whatever its totals. */
  lemma {:induction false} ReplayFilteredIsSilent(skill: Skill, filtered: set<string>, style: XpDropStyle, prev: Int32, totals: seq<Int32>)
    requires FilterKey(skill) in filtered
    ensures ReplaySkill(skill, filtered, style, prev, totals) == []
    decreases |totals|
  {
    if totals != [] {
      ReplayFilteredIsSilent(skill, filtered, style, totals[0], totals[1..]);
    }
  }

  /** After the table is reset, the first stat change of a skill only
      establishes its baseline. */
  lemma ReplayAfterReset(skill: Skill, filtered: set<string>, style: XpDropStyle, totals: seq<Int32>)
    requires totals != []
    ensures ReplaySkill(skill, filtered, style, 0, totals) == ReplaySkill(skill, filtered, style, totals[0], totals[1..])
  {
  }

  // ---------------------------------------------------------------------
  // The pending queue's order

  /** `q[i]` has a rank no greater than any other pending drop. */
  predicate IsMinimalAt(priority: Skill -> int, q: seq<XpDrop>, i: int)
  {
    0 <= i < |q| && forall j :: 0 <= j < |q| ==> priority(q[i].skill) <= priority(q[j].skill)
  }

  /** Polling `d` from the pending drops `before` leaves `after`: `d` is
      pending, no pending drop ranks lower, and one copy of it is removed. */
  ghost predicate PollsTo(priority: Skill -> int, before: multiset<XpDrop>, d: XpDrop, after: multiset<XpDrop>)
  {
    d in before && (forall e :: e in before ==> priority(d.skill) <= priority(e.skill)) &&
    after == before - multiset{d}
  }

  lemma {:induction false} MinimalRankExists(priority: Skill -> int, q: seq<XpDrop>)
    requires q != []
    ensures exists i :: IsMinimalAt(priority, q, i)
    decreases |q|
  {
    if |q| == 1 {
      assert IsMinimalAt(priority, q, 0);
    } else {
      MinimalRankExists(priority, q[1..]);
      var k :| IsMinimalAt(priority, q[1..], k);
      if priority(q[0].skill) <= priority(q[k + 1].skill) {
        assert IsMinimalAt(priority, q, 0);
      } else {
        assert IsMinimalAt(priority, q, k + 1);
      }
    }
  }

  // ---------------------------------------------------------------------
  // Icon lookup

  /** A sprite the host hands out. */
  datatype Sprite = Sprite(id: int)

  /** The guard of the icon lookup: the sprite at `spriteIndex` of the
      host's sprite array for an icon, or nothing when there is no client,
      no array, too short an array, or an empty slot. */
  function GetIcon(clientPresent: bool, pixels: Option<seq<Option<Sprite>>>, spriteIndex: nat): (r: Option<Sprite>)
    ensures r.Some? <==>
              clientPresent && pixels.Some? && |pixels.value| >= spriteIndex + 1 && pixels.value[spriteIndex].Some?
    ensures r.Some? ==> r == pixels.value[spriteIndex]
  {
    if !clientPresent then None
    else if pixels.Some? && |pixels.value| >= spriteIndex + 1 && pixels.value[spriteIndex].Some? then pixels.value[spriteIndex]
    else None
  }

  // ---------------------------------------------------------------------
  // The plugin object

  class Plugin {
    /** Rank of each skill in the pending queue; lower ranks pop first. */
    const priority: Skill -> int
    /** The style-granting prayers, in enumeration order. */
    const prayers: seq<XpPrayer>
    /** Last known experience total per skill, indexed by ordinal. */
    const previousExp: array<Int32>
    /** Lower-cased names of the skills whose drops are suppressed. */
    var filteredSkills: set<string>
    /** Pending drops; only their multiset matters, `Poll` picks by rank. */
    var queue: seq<XpDrop>
    /** The overlay in use; `None` before the plugin has started. */
    var currentOverlay: Option<OverlayKind>

    ghost predicate Valid()
      reads this
    {
      previousExp.Length == TrackedSkills
    }

    constructor (priority: Skill -> int, prayers: seq<XpPrayer>)
      ensures Valid() && fresh(previousExp)
      ensures this.priority == priority && this.prayers == prayers
      ensures forall i :: 0 <= i < previousExp.Length ==> previousExp[i] == 0
      ensures filteredSkills == {} && queue == [] && currentOverlay == None
    {
      this.priority := priority;
      this.prayers := prayers;
      previousExp := new Int32[TrackedSkills](_ => 0);
      filteredSkills := {};
      queue := [];
      currentOverlay := None;
    }

    /** The queue's comparator: the sign of the rank difference. */
    function SkillPriorityComparator(x1: XpDrop, x2: XpDrop): (c: int)
      ensures -1 <= c <= 1
      ensures c < 0 <==> priority(x1.skill) < priority(x2.skill)
      ensures c == 0 <==> priority(x1.skill) == priority(x2.skill)
    {
      var p1 := priority(x1.skill);
      var p2 := priority(x2.skill);
      if p1 < p2 then -1 else if p1 == p2 then 0 else 1
    }

    /** Scans the style-granting prayers in order and returns the style of
        the first one that is active. */
    method GetActivePrayerType(active: set<Prayer>) returns (r: Option<XpDropStyle>)
      ensures r == FirstActiveStyle(prayers, active)
    {
      var i := 0;
      while i < |prayers|
        invariant 0 <= i <= |prayers|
        invariant FirstActiveStyle(prayers[i..], active) == FirstActiveStyle(prayers, active)
      {
        assert prayers[i..][1..] == prayers[i + 1..];
        if prayers[i].prayer in active {
          return Some(prayers[i].style);
        }
        i := i + 1;
      }
      return None;
    }

    /** The style of a new drop for `skill` under the active prayers. */
    method MatchPrayerStyle(skill: Skill, active: set<Prayer>) returns (style: XpDropStyle)
      ensures style == StyleFor(skill, FirstActiveStyle(prayers, active))
    {
      var activeStyle := GetActivePrayerType(active);
      style := StyleFor(skill, activeStyle);
    }

    /** Activation: zero the table unless logged in (a logged-in start
        resynchronises later, see `ResyncFromClient`), empty the queue and
        pick the overlay variant from the configuration. */
    method StartUp(state: GameState, attachToPlayer: bool)
      requires Valid()
      modifies this`queue, this`currentOverlay, previousExp
      ensures Valid()
      ensures state == LoggedIn ==> previousExp[..] == old(previousExp[..])
      ensures state != LoggedIn ==> forall i :: 0 <= i < previousExp.Length ==> previousExp[i] == 0
      ensures queue == []
      ensures currentOverlay == Some(if attachToPlayer then FollowPlayer else FixedBox)
    {
      if state != LoggedIn {
        forall i | 0 <= i < previousExp.Length {
          previousExp[i] := 0;
        }
      }
      queue := [];
      currentOverlay := Some(if attachToPlayer then FollowPlayer else FixedBox);
    }

    /** Activation as evidently intended: as `StartUp`, and the filter set
        is also built from the configured `skillsToFilter` entries. */
    method StartUpWithFilter(state: GameState, attachToPlayer: bool, skillsToFilter: seq<string>)
      requires Valid()
      modifies this`queue, this`currentOverlay, this`filteredSkills, previousExp
      ensures Valid()
      ensures state == LoggedIn ==> previousExp[..] == old(previousExp[..])
      ensures state != LoggedIn ==> forall i :: 0 <= i < previousExp.Length ==> previousExp[i] == 0
      ensures queue == []
      ensures currentOverlay == Some(if attachToPlayer then FollowPlayer else FixedBox)
      ensures filteredSkills == BuildFilter(skillsToFilter)
    {
      StartUp(state, attachToPlayer);
      filteredSkills := BuildFilter(skillsToFilter);
    }

    /** The deferred step of a logged-in start: copy the host's totals. */
    method ResyncFromClient(xps: seq<Int32>)
      requires Valid()
      requires |xps| >= TrackedSkills
      modifies previousExp
      ensures previousExp[..] == xps[..TrackedSkills]
    {
      forall i | 0 <= i < previousExp.Length {
        previousExp[i] := xps[i];
      }
    }

    /** A configuration change of this plugin's group switches the overlay
        variant or rebuilds the filter set. */
    method OnConfigChanged(group: string, key: string, attachToPlayer: bool, skillsToFilter: seq<string>)
      modifies this`currentOverlay, this`filteredSkills
      ensures group != ConfigGroup || key != AttachToPlayerKey ==> currentOverlay == old(currentOverlay)
      ensures group == ConfigGroup && key == AttachToPlayerKey ==>
                (currentOverlay == Some(FollowPlayer) <==> attachToPlayer) &&
                (!attachToPlayer ==>
                   currentOverlay == if old(currentOverlay) == Some(FollowPlayer) then Some(FixedBox) else old(currentOverlay))
      ensures group != ConfigGroup || key != SkillsToFilterKey ==> filteredSkills == old(filteredSkills)
      ensures group == ConfigGroup && key == SkillsToFilterKey ==> filteredSkills == BuildFilter(skillsToFilter)
    {
      if group == ConfigGroup {
        if key == AttachToPlayerKey {
          if attachToPlayer && currentOverlay != Some(FollowPlayer) {
            currentOverlay := Some(FollowPlayer);
          } else if !attachToPlayer && currentOverlay == Some(FollowPlayer) {
            currentOverlay := Some(FixedBox);
          }
        }
        if key == SkillsToFilterKey {
          filteredSkills := BuildFilter(skillsToFilter);
        }
      }
    }

    /** Logging out to the login screen or hopping worlds forgets every total. */
    method OnGameStateChanged(state: GameState)
      requires Valid()
      modifies previousExp
      ensures state == LoginScreen || state == Hopping ==>
                forall i :: 0 <= i < previousExp.Length ==> previousExp[i] == 0
      ensures state != LoginScreen && state != Hopping ==> previousExp[..] == old(previousExp[..])
    {
      if state == LoginScreen || state == Hopping {
        forall i | 0 <= i < previousExp.Length {
          previousExp[i] := 0;
        }
      }
    }

    /** A synthetic drop of `xp` for `skill`; the table is not touched. */
    method OnFakeXpDrop(skill: Skill, xp: Int32, active: set<Prayer>)
      modifies this`queue
      ensures queue == old(queue) + FakeDrops(xp, filteredSkills, skill, StyleFor(skill, FirstActiveStyle(prayers, active)))
    {
      if xp >= FakeXpLimit {
        return;
      }
      if FilterKey(skill) in filteredSkills {
        return;
      }
      var style := MatchPrayerStyle(skill, active);
      queue := queue + [XpDrop(skill, xp, style, true)];
    }

    /** A new experience total `xp` for `skill`: queue the gain if admitted,
        then record the total. OVERALL has no table entry, so the Java
        array access fails and nothing changes (`ok` is false). */
    method OnStatChanged(skill: Skill, xp: Int32, active: set<Prayer>) returns (ok: bool)
      requires Valid()
      modifies this`queue, previousExp
      ensures ok <==> skill != Overall
      ensures !ok ==> queue == old(queue) && previousExp[..] == old(previousExp[..])
      ensures ok ==> previousExp[..] == old(previousExp[..])[Ordinal(skill) := xp] && previousExp[Ordinal(skill)] == xp
      ensures ok ==> queue == old(queue) + StatDrops(old(previousExp[Ordinal(skill)]), xp, filteredSkills, skill,
                                                     StyleFor(skill, FirstActiveStyle(prayers, active)))
    {
      var index := Ordinal(skill);
      if index >= previousExp.Length {
        return false;
      }
      var previousXp := previousExp[index];
      ghost var drops := StatDrops(previousXp, xp, filteredSkills, skill, StyleFor(skill, FirstActiveStyle(prayers, active)));
      if previousXp > 0 && Delta(previousXp, xp) > 0 && FilterKey(skill) !in filteredSkills {
        var style := MatchPrayerStyle(skill, active);
        queue := queue + [XpDrop(skill, Delta(previousXp, xp), style, false)];
      }
      assert queue == old(queue) + drops;
      previousExp[index] := xp;
      ok := true;
    }

    /** Successive stat changes of one tracked skill to `totals`, under a
        fixed set of active prayers: the queue gains exactly the drops of
        `ReplaySkill` from the skill's old entry, and the entry ends at the
        last total. */
    method OnStatChanges(skill: Skill, totals: seq<Int32>, active: set<Prayer>)
      requires Valid() && skill != Overall
      modifies this`queue, previousExp
      ensures queue == old(queue) + ReplaySkill(skill, filteredSkills, StyleFor(skill, FirstActiveStyle(prayers, active)),
                                                old(previousExp[Ordinal(skill)]), totals)
      ensures totals == [] ==> previousExp[..] == old(previousExp[..])
      ensures totals != [] ==> previousExp[..] == old(previousExp[..])[Ordinal(skill) := totals[|totals| - 1]]
    {
      ghost var style := StyleFor(skill, FirstActiveStyle(prayers, active));
      ghost var k := Ordinal(skill);
      ghost var table := previousExp[..];
      ghost var pending := queue + ReplaySkill(skill, filteredSkills, style, previousExp[k], totals);
      for i := 0 to |totals|
        invariant Valid()
        invariant queue + ReplaySkill(skill, filteredSkills, style, previousExp[k], totals[i..]) == pending
        invariant SameExcept(previousExp[..], table, k)
        invariant previousExp[k] == if i == 0 then table[k] else totals[i - 1]
      {
        ghost var before, prev, queued := previousExp[..], previousExp[k], queue;
        ReplayFirst(skill, filteredSkills, style, queued, prev, totals, i);
        var ok := OnStatChanged(skill, totals[i], active);
        assert queue == queued + StatDrops(prev, totals[i], filteredSkills, skill, style);
        SameExceptAfterUpdate(before, table, k, totals[i]);
      }
      assert totals[|totals|..] == [];
      SameExceptIsUpdate(previousExp[..], table, k);
    }

    /** The queue's `poll`: removes and returns a pending drop of minimal
        rank by the comparator. Equal ranks come out in no promised order. */
    method Poll() returns (d: Option<XpDrop>)
      modifies this`queue
      ensures d.None? <==> old(queue) == []
      ensures d.None? ==> queue == old(queue)
      ensures d.Some? ==> d.value in old(queue) &&
                          (forall e :: e in old(queue) ==> SkillPriorityComparator(d.value, e) <= 0) &&
                          multiset(queue) == multiset(old(queue)) - multiset{d.value}
      ensures d.Some? ==> PollsTo(priority, multiset(old(queue)), d.value, multiset(queue))
    {
      if queue == [] {
        return None;
      }
      MinimalRankExists(priority, queue);
      var i :| IsMinimalAt(priority, queue, i);
      d := Some(queue[i]);
      assert queue == queue[..i] + [queue[i]] + queue[i + 1..];
      queue := queue[..i] + queue[i + 1..];
    }
  }

  // ---------------------------------------------------------------------
  // Scenarios

  /** The ranks of the ordering example: Attack 1, Magic 2, any other 5. */
  function ScenarioRank(s: Skill): int
  {
    if s == Attack then 1 else if s == Magic then 2 else 5
  }

  /** Drops for Woodcutting (rank 5), Magic (rank 2) and Attack (rank 1),
      queued in that order, are polled as Attack, Magic, Woodcutting. */
  method PriorityOrderScenario() returns (first: Option<XpDrop>, second: Option<XpDrop>, third: Option<XpDrop>)
    ensures first.Some? && first.value.skill == Attack
    ensures second.Some? && second.value.skill == Magic
    ensures third.Some? && third.value.skill == Woodcutting
  {
    var plugin := new Plugin(ScenarioRank, []);
    var w, mg, a := XpDrop(Woodcutting, 25, Default, true), XpDrop(Magic, 30, Default, true), XpDrop(Attack, 40, Default, true);
    plugin.OnFakeXpDrop(Woodcutting, 25, {});
    plugin.OnFakeXpDrop(Magic, 30, {});
    plugin.OnFakeXpDrop(Attack, 40, {});
    assert plugin.queue == [w, mg, a];
    ghost var m0 := multiset(plugin.queue);
    first := plugin.Poll();
    ghost var m1 := multiset(plugin.queue);
    second := plugin.Poll();
    ghost var m2 := multiset(plugin.queue);
    third := plugin.Poll();
    PollOrderExample(first.value, second.value, third.value, m1, m2, multiset(plugin.queue));
  }

  /** Polling the pending drops Woodcutting, Magic, Attack three times under
      the example's ranks yields Attack, then Magic, then Woodcutting. */
  lemma PollOrderExample(d1: XpDrop, d2: XpDrop, d3: XpDrop, m1: multiset<XpDrop>, m2: multiset<XpDrop>, m3: multiset<XpDrop>)
    requires PollsTo(ScenarioRank, multiset{XpDrop(Woodcutting, 25, Default, true), XpDrop(Magic, 30, Default, true),
                                            XpDrop(Attack, 40, Default, true)}, d1, m1)
    requires PollsTo(ScenarioRank, m1, d2, m2)
    requires PollsTo(ScenarioRank, m2, d3, m3)
    ensures d1.skill == Attack && d2.skill == Magic && d3.skill == Woodcutting && m3 == multiset{}
  {
  }

  /** As written, a filter configured before the plugin starts is ignored:
      with "Attack" configured, a logged-in start followed by an Attack gain
      still queues a drop, because `StartUp` never reads the option. */
  method StartUpIgnoresConfiguredFilter() returns (configured: set<string>, queued: seq<XpDrop>)
    ensures FilterKey(Attack) in configured
    ensures |queued| == 1 && queued[0].skill == Attack && queued[0].amount == 50
  {
    FilterKeyIsLowerCasedName(Attack);
    configured := BuildFilter(["Attack"]);
    var plugin := new Plugin(Ordinal, []);
    plugin.StartUp(LoggedIn, false);
    plugin.ResyncFromClient(seq(TrackedSkills + 1, _ => 100));
    var ok := plugin.OnStatChanged(Attack, 150, {});
    queued := plugin.queue;
  }

  /** With the filter built at start-up, the same gain queues nothing. */
  method StartUpWithFilterAppliesIt() returns (queued: seq<XpDrop>)
    ensures queued == []
  {
    FilterKeyIsLowerCasedName(Attack);
    var plugin := new Plugin(Ordinal, []);
    plugin.StartUpWithFilter(LoggedIn, false, ["Attack"]);
    plugin.ResyncFromClient(seq(TrackedSkills + 1, _ => 100));
    var ok := plugin.OnStatChanged(Attack, 150, {});
    queued := plugin.queue;
  }
}
