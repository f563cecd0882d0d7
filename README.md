# Customizable XP drops: admission, pending queue and follow-player drawing

A Dafny model of the core of a game-client overlay plugin that shows
floating "experience drops". The model covers two parts.

- **The plugin object** (`XpDropsPlugin.Plugin`, in `plugin.dfy`). It owns
  four pieces of state: the last known experience total of each skill (a
  23-entry `array`), the set of lower-cased skill names the user filters
  out, the pending drops, and the overlay variant in use. Its event
  handlers change that state:
  - a stat change queues a drop when a positive baseline exists, the total
    grew and the skill is not filtered, and it always records the new total;
  - a synthetic drop is queued below 20,000,000 for an unfiltered skill;
  - the login screen and world hops zero the table;
  - a configuration change rebuilds the filter or switches the overlay;
  - `Poll` takes out a pending drop of minimal skill rank.

  The drop style comes from the first active style-granting prayer
  (`styles.dfy`). It applies only to the matching skills: Magic, Ranged,
  and Attack, Strength and Defence.
- **The follow-player overlay** (`ActorOverlay`, in `actor.dfy`). It
  computes the anchor point of a frame: the player's projected text
  location, lifted by at most 140, moved by the configured offsets with the
  y offset inverted. If there is no player or no projection, nothing is
  drawn and the animation does not advance. It also gives the list of drawing calls a frame makes: for each
  entry that has not finished, a shadow string, the coloured string and the
  icons, in list order.

`skills.dfy` holds the skill enumeration, Java's `int` with its
wrap-around, and ASCII lower-casing. `wrappers.dfy` holds the `Option`
type, which stands for a Java reference that may be null.

The model follows the code in these places:
- The pending queue is a Java `PriorityQueue`, which is not stable. `Poll`
  therefore promises only a drop of minimal rank. It does not promise
  arrival order among equal ranks.
- A login-screen or world-hop event zeroes the experience table only. It
  does not empty the pending queue.
- A synthetic drop's amount is not checked for positivity. Only the upper
  limit is checked.

## Model

| member | source | states |
|---|---|---|
| Skills.Ordinal | src/main/java/com/xpdrops/CustomizableXpDropsPlugin.java:74 | the table has an entry for every skill except OVERALL |
| Skills.OrdinalInjective | src/main/java/com/xpdrops/CustomizableXpDropsPlugin.java:199-206 | distinct skills index distinct table entries, so a stat change of one skill leaves every other skill's entry alone |
| Skills.FilterKeyIsLowerCasedName | src/main/java/com/xpdrops/CustomizableXpDropsPlugin.java:186 | the filter key of a skill is its display name lower-cased |
| Styles.FirstActiveStyleMeaning | src/main/java/com/xpdrops/CustomizableXpDropsPlugin.java:230-240 | the prayer scan yields nothing iff no prayer is active, else the style of the first active prayer in enumeration order |
| Styles.StyleFor | src/main/java/com/xpdrops/CustomizableXpDropsPlugin.java:242-270 | a style other than DEFAULT comes out iff (Magic, MAGE), (Ranged, RANGE) or (Attack/Strength/Defence, MELEE), and it is then the active style |
| XpDropsPlugin.Delta | src/main/java/com/xpdrops/CustomizableXpDropsPlugin.java:200 | the gain is the 32-bit wrapped difference, equal to the plain difference for non-negative totals |
| XpDropsPlugin.StatDrops | src/main/java/com/xpdrops/CustomizableXpDropsPlugin.java:198-204 | a stat change yields one drop iff baseline > 0, wrapped gain > 0 and skill unfiltered; the drop is real (not fake), of that skill and style, with a positive amount equal to the 32-bit wrapped gain (the plain difference when the new total is non-negative) |
| XpDropsPlugin.FakeDrops | src/main/java/com/xpdrops/CustomizableXpDropsPlugin.java:178-193 | a synthetic event yields one drop iff xp < 20,000,000 and skill unfiltered, and it is exactly (skill, xp, style, fake) |
| XpDropsPlugin.FakeLimitBoundary | src/main/java/com/xpdrops/CustomizableXpDropsPlugin.java:181-185 | 19,999,999 is queued and 20,000,000 is not |
| XpDropsPlugin.BuildFilter | src/main/java/com/xpdrops/CustomizableXpDropsPlugin.java:136-145 | the rebuilt filter is exactly the lower-cased entries plus "runecraft" iff an entry lower-cases to "runecrafting" |
| XpDropsPlugin.RunecraftingAliasFilters | src/main/java/com/xpdrops/CustomizableXpDropsPlugin.java:139-144 | configuring "runecrafting" in any letter case suppresses real and synthetic Runecraft drops |
| XpDropsPlugin.AliasIsOneWay | src/main/java/com/xpdrops/CustomizableXpDropsPlugin.java:140-144 | configuring "runecraft" does not add "runecrafting" |
| XpDropsPlugin.ConfiguredSkillIsSuppressed | src/main/java/com/xpdrops/CustomizableXpDropsPlugin.java:186-200 | a configured skill name in any letter case yields no drops of either kind |
| XpDropsPlugin.StatDropsOfGain | src/main/java/com/xpdrops/CustomizableXpDropsPlugin.java:198-204 | from a positive baseline to a total no smaller, the drop is exactly the gain, or none when nothing was gained |
| XpDropsPlugin.ReplayCountsGains | src/main/java/com/xpdrops/CustomizableXpDropsPlugin.java:196-207 | over successive non-decreasing totals of an unfiltered skill from a positive baseline, one drop per strict increase, all positive, summing to the total gain |
| XpDropsPlugin.ReplayFilteredIsSilent | src/main/java/com/xpdrops/CustomizableXpDropsPlugin.java:200 | a filtered skill never yields a drop, whatever its totals |
| XpDropsPlugin.ReplayAfterReset | src/main/java/com/xpdrops/CustomizableXpDropsPlugin.java:199-206 | after the table is zeroed, the first stat change of a skill only sets the baseline |
| XpDropsPlugin.GetIcon | src/main/java/com/xpdrops/CustomizableXpDropsPlugin.java:216-228 | a sprite comes back iff the client, the array and the slot exist and the array is long enough, and it is the sprite in that slot |
| XpDropsPlugin.PollOrderExample | src/main/java/com/xpdrops/CustomizableXpDropsPlugin.java:64-72 | with ranks Attack 1, Magic 2, Woodcutting 5, three polls of {Woodcutting, Magic, Attack} give Attack, Magic, Woodcutting and empty the queue |
| XpDropsPlugin.PriorityOrderScenario | src/main/java/com/xpdrops/CustomizableXpDropsPlugin.java:64-72 | the same order, through the plugin's own handlers and `Poll` |
| XpDropsPlugin.StartUpIgnoresConfiguredFilter | src/main/java/com/xpdrops/CustomizableXpDropsPlugin.java:81-105 | as written, a filter configured before start-up does not stop an Attack drop after a logged-in start |
| XpDropsPlugin.StartUpWithFilterAppliesIt | src/main/java/com/xpdrops/CustomizableXpDropsPlugin.java:81-105 | with the filter built at start-up, the same Attack gain queues nothing |
| XpDropsPlugin.Plugin.constructor | src/main/java/com/xpdrops/CustomizableXpDropsPlugin.java:72-78 | a fresh plugin has an all-zero 23-entry table, an empty filter, an empty queue and no overlay |
| XpDropsPlugin.Plugin.SkillPriorityComparator | src/main/java/com/xpdrops/CustomizableXpDropsPlugin.java:64-69 | the comparator is -1, 0 or 1, negative iff the first rank is lower, zero iff the ranks are equal |
| XpDropsPlugin.Plugin.GetActivePrayerType | src/main/java/com/xpdrops/CustomizableXpDropsPlugin.java:230-240 | the loop returns the first active prayer's style, or nothing |
| XpDropsPlugin.Plugin.MatchPrayerStyle | src/main/java/com/xpdrops/CustomizableXpDropsPlugin.java:242-270 | the style is `StyleFor` of the skill and the first active prayer's style |
| XpDropsPlugin.Plugin.StartUp | src/main/java/com/xpdrops/CustomizableXpDropsPlugin.java:81-105 | the table is zeroed unless logged in (then it is unchanged), the queue is emptied, and the overlay is the follower iff attach-to-player is set |
| XpDropsPlugin.Plugin.StartUpWithFilter | src/main/java/com/xpdrops/CustomizableXpDropsPlugin.java:81-105 | as `StartUp`, and the filter equals `BuildFilter` of the configured entries |
| XpDropsPlugin.Plugin.ResyncFromClient | src/main/java/com/xpdrops/CustomizableXpDropsPlugin.java:85-89 | the table becomes the first 23 totals the host reports |
| XpDropsPlugin.Plugin.OnConfigChanged | src/main/java/com/xpdrops/CustomizableXpDropsPlugin.java:116-147 | other groups and keys change nothing; an attachToPlayer change makes the overlay the follower iff the option is set, and when it is unset an unstarted (null) overlay stays null; a skillsToFilter change makes the filter exactly `BuildFilter` of the entries, old entries gone |
| XpDropsPlugin.Plugin.OnGameStateChanged | src/main/java/com/xpdrops/CustomizableXpDropsPlugin.java:168-175 | LOGIN_SCREEN or HOPPING zeroes every table entry; other states change nothing |
| XpDropsPlugin.Plugin.OnFakeXpDrop | src/main/java/com/xpdrops/CustomizableXpDropsPlugin.java:177-193 | the queue gains exactly `FakeDrops` of the event; the table and filter are untouched |
| XpDropsPlugin.Plugin.OnStatChanged | src/main/java/com/xpdrops/CustomizableXpDropsPlugin.java:195-207 | for OVERALL nothing changes (the Java array access fails); otherwise the queue gains exactly `StatDrops` from the old entry, and that entry alone becomes the event's total |
| XpDropsPlugin.Plugin.OnStatChanges | src/main/java/com/xpdrops/CustomizableXpDropsPlugin.java:195-207 | successive stat changes of one skill under fixed prayers append exactly `ReplaySkill` from the skill's old entry to the queue, so `ReplayCountsGains` describes the handler itself; the entry ends at the last total and no other entry changes |
| XpDropsPlugin.Plugin.Poll | src/main/java/com/xpdrops/CustomizableXpDropsPlugin.java:64-72 | an empty queue yields nothing; otherwise a pending drop no other drop out-ranks by the comparator, with one copy of it removed |
| ActorOverlay.ZOffset | src/main/java/com/xpdrops/XpDropOverlayActor.java:37 | the height offset is the minimum of the player's height and 140 |
| ActorOverlay.Anchor | src/main/java/com/xpdrops/XpDropOverlayActor.java:33-43 | no anchor without a player or a projection; otherwise the projected point plus offsetX and minus offsetY |
| ActorOverlay.EntryCommands | src/main/java/com/xpdrops/XpDropOverlayActor.java:65-83 | an entry is drawn as a black shadow at (x+1, y+1), then its colour at (x, y) with its alpha, then its icons at (x-2, y-maxAscent), where x is the anchor plus offset less half the text width |
| ActorOverlay.Live | src/main/java/com/xpdrops/XpDropOverlayActor.java:59-64 | the drawn entries are exactly those whose frame is not negative |
| ActorOverlay.DrawPlanDrawsLiveEntries | src/main/java/com/xpdrops/XpDropOverlayActor.java:59-84 | a frame makes three calls per live entry, and the k-th group draws the k-th live entry, in list order |
| ActorOverlay.DrawPlanAppend | src/main/java/com/xpdrops/XpDropOverlayActor.java:59-84 | drawing two lists one after the other equals drawing their concatenation, so each entry is drawn independently and in order |
| ActorOverlay.FinishedEntriesDrawNothing | src/main/java/com/xpdrops/XpDropOverlayActor.java:59-64 | if every entry has a negative frame, there are no calls |
| ActorOverlay.DrawXpDrops | src/main/java/com/xpdrops/XpDropOverlayActor.java:53-85 | the loop makes exactly the calls of `DrawPlan` |
| ActorOverlay.Render | src/main/java/com/xpdrops/XpDropOverlayActor.java:28-51 | the frame's anchor is `Anchor`; without one the frame returns early, so the animator step does not run, the entries are unchanged and there are no calls; with one the entries become `update` of the old ones and the calls are `DrawPlan` of the updated entries around the anchor |

## Left out

- Dependency injection, `provideConfig`, `shutDown`, and the overlay manager's `add`/`remove` calls. They are framework calls. Only the `currentOverlay` field is modelled.
- The script hook that hides the client's own drop widget. It reads the client's script stack and changes a host widget.
- The skill-to-icon ordinal table, sprite lookup and the bitmap conversion. These are host calls. `GetIcon` keeps only the guard and returns the sprite in place of its image.
- XpDropsPlugin.GetIcon: takes a natural-number index. A negative index would throw in Java past the length check, and the only caller passes 0.
- Splitting the CSV option string, which is taken as the given list of entries.
- Lower-casing is modelled for ASCII letters only. Java lower-cases all of Unicode.
- Skills.Ordinal, XpDropsPlugin.Plugin.SkillPriorityComparator: the skill enumeration, the rank table and the prayer enumeration belong to code that is not part of this model. The host's skill order is written out. The ranks and the prayer table are constructor parameters.
- The deferred host-thread call in a logged-in start-up is modelled as a separate step, `ResyncFromClient`. Events that arrive before it runs are not ordered against it.
- The experience table is a `static` array in the source, shared by every plugin instance. Here each instance owns its table.
- The animator's internals are not part of this model: merging, easing, lifetime and alpha, and the drop text and colour choice. Its `update()` step is a parameter of `Render`, which runs it only when the frame has an anchor; the entries it yields carry text, colour, offsets and alpha already fixed.
- Fonts, rendering hints, colour objects and the float offsets, alpha and centring casts. Offsets, alpha and half text width are integers here, and the centring is one subtraction.
- The frame time taken from the wall clock after drawing.
- ActorOverlay.Anchor, ActorOverlay.DrawXpDrops: coordinates are unbounded integers. Java `int` wrap-around is not modelled, since screen coordinates stay small.
- XpDropsPlugin.Plugin.Poll: the queue is a sequence used as a bag. The heap layout of Java's queue is not modelled, and there is no promise among equal ranks.

## Findings

| source | as written | input that shows it | evidently intended | confidence | as-written member | corrected member |
|---|---|---|---|---|---|---|
| src/main/java/com/xpdrops/CustomizableXpDropsPlugin.java:81-105 | start-up never builds the filter set from the `skillsToFilter` option. Only a later change of that option fills it, so a filter saved from an earlier session is ignored until the user edits it | option "Attack" saved, then a logged-in start, totals resynchronised at 100, then Attack reaches 150: a drop of 50 is queued | start-up also builds the filter from the option | medium; not executed | XpDropsPlugin.StartUpIgnoresConfiguredFilter | XpDropsPlugin.Plugin.StartUpWithFilter |
