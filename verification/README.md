# A verified model of the game's deterministic core and its tools

A Dafny project that models the logic at the centre of a clean-room game
engine, and proves what that logic is for. It covers:

- **The generator** (`Pcg32`, over `FullPeriod`, `Counting`, `Bits`,
  `Arithmetic`). The 64-bit congruential step with output permutation. Full
  period for every odd increment (Hull and Dobell's theorem for modulus 2^64),
  from which the unbounded rejection loop is shown to end, and exact
  uniformity of the bounded draw.
- **The play script and the route checker** (`Text`, `Numerals`, `PlayScript`,
  `WrittenScripts`, `RouteHeader`, `RouteCheck`, `WrittenRoutes`). A grammar for
  scripts, the parser proved to accept exactly that grammar and to read numbers
  and whole scripts back as they were written, and the stricter admission check
  proved to admit exactly the routes as the planner writes them, which the
  parser accepts and carries out tick for tick.
- **The sound cache** (`SoundCache`). A least-recently-used cache that agrees
  with uncached decoding, with exact accounting and bounds.
- **Two concurrent tools** (`Capture`, `WorkerPool`) as state machines over the
  steps of child, reader, clock and workers.
- **The artificial-intelligence tick** (`Geometry`, `MonsterStates`, `Senses`,
  `Steps`, `Turning`, `Schedules`, `Brains`, `Squads`, `Ordering`, `AiWorld`,
  then `Noticing`, `Movement`, `Behaviours`, `Prisoners`, `Enmity`, `WorldRuns`,
  `Perceptions`, `Determinism`, `Replays` and `DigestGaps`). One tick of sense,
  remember, decide, run a schedule and move: exactly what a monster notices and
  remembers, that it walks its route to the end, and that the published schedules
  do what they are named for; and claims about every run: prisoners attack nobody,
  nobody acquires one but by being hurt, nothing depends on storage order, and
  exactly what the digest leaves out of what decides the next tick.
- **Scripted possession, monster makers** (`Scripts`, `Spawners`).
- **Chain walks and crate policy** (`ChainAssembly`, `ChainReport`,
  `WrittenReports`, `CrateGraph`).

Where the program changes state step by step the model is a class or a method
with a loop, proved equal to a function of the old state; the claims are lemmas
about those functions. `Wrappers` holds the option and result types, `Sequences`
what is said of sequences in general.

`dafny verify dfyconfig.toml` covers everything. Every proof stays within a
resource limit of 2000000, without a time limit.

## Where code and documentation disagree

The model follows the code. In each of these a lemma shows what holds instead.

- Distinct random streams are documented never to overlap. They do exactly when
  their selectors agree in the low 63 bits (`Pcg32.StreamsOverlapIff`,
  `Pcg32.DistinctStreamsOverlap`).
- Reports grouped by chapter are documented to be in campaign order. That holds
  exactly with at most one worker, or when no chapter holds two different maps
  (`WorkerPool.ChapterOrderIff`); the printed summary does not depend on it
  (`WorkerPool.SummaryIgnoresInterleaving`). The smoke's verdict is
  right exactly when some reported map fails, or every map that no worker reported
  would have passed (`WorkerPool.VerdictIsRightIff`); a panic can always hide a
  failure (`WorkerPool.PanicHidesAFailure`).
- Choosing an enemy is documented not to depend on the order of the candidates.
  The distance tolerance is not transitive, so that holds exactly when one
  possible enemy is better than every other (`Senses.ChoiceIgnoresOrderIff`,
  `Senses.ToleranceDependsOnOrder`). Within a tick the order is fixed by sorting,
  so `Determinism.TickIgnoresOrder` needs nothing of the kind.
- A prisoner is documented never to reach combat. It has no enemy and attacks
  nobody after any tick, but it does reach combat exactly when its pending
  conditions, restored from a save, report an enemy seen
  (`Prisoners.PrisonerFightsIffTold`, `WorldRuns.PrisonersNeverFight`). No tick
  produces such pending conditions itself.
- The state digest is documented to cover everything that must replay. It does
  not cover the brain, the move target, the cover, whether the current task has
  begun, which occupant of a slot an entity or an enemy is, the flags and squad
  tag of an entity, the sounds beyond their number, the damage, and what a squad
  shares. Together with these, and with schedules known by their names, it
  decides every later tick (`Replays.DigestDecidesTick`, `Replays.RunsReplay`),
  and each of them is needed (`DigestGaps`).
- The inert schedule is documented as the last one of a dead monster. A dead
  monster that hears danger is given another (`Perceptions.DeadIsInertIff`), and
  the schedule it died in runs on, so that whether it strikes is decided by the
  same condition as for one that lives (`Perceptions.AttacksIff`).
- One teleport is documented as enough for a script's monster. After a repeat
  there are two (`Scripts.EveryRunKeepsInv`, `Scripts.RepeatTeleportsTwice`).
- The test worker is documented as something nothing shipping depends on. The
  composition root's rule permits it (`CrateGraph.OnlyTheRoot`).

## Model

| member | source | states |
|---|---|---|
| `Pcg32.SkipIsOrbit` | crates/ohl-ai/src/rng.rs:72-77 | n steps of the generator are n steps of the congruential walk modulo 2^64, on an unchanged increment |
| `Pcg32.StatesDistinct` | crates/ohl-ai/src/rng.rs:72-77 | full period, one half: from any state and any odd increment no two of the first 2^64 states are equal |
| `Pcg32.EveryStateReached` | crates/ohl-ai/src/rng.rs:72-77 | full period, the other half: every 64-bit state is reached within 2^64 steps |
| `Pcg32.ThresholdIsRemainder` | crates/ohl-ai/src/rng.rs:99-101 | the wrapping-negation threshold equals 2^32 mod the bound, is below the bound and at most 2^31 |
| `Pcg32.SureOutput` | crates/ohl-ai/src/rng.rs:80-89 | the output at state 2^58 is at least 2^31, so no bound's threshold rejects it |
| `Pcg32.OutputBits` | crates/ohl-ai/src/rng.rs:80-89 | the output, over numbers alone: its bit j is bit 27+k of the state exclusive-or bit 45+k (zero above 63), where k is j plus the state's top five bits, modulo 32 |
| `Pcg32.DistanceShrinks` | crates/ohl-ai/src/rng.rs:72-77 | the orbit distance to state 2^58 goes down by exactly one at every step that does not start there |
| `Pcg32.RejectionEnds` | crates/ohl-ai/src/rng.rs:95-106 | from every state and for every positive bound some draw within one period is accepted |
| `Pcg32.OutputsBalanced` | crates/ohl-ai/src/rng.rs:80-89 | the output permutation is balanced: each of the 2^32 outputs comes from exactly 2^32 of the 2^64 states |
| `Pcg32.DrawsBalanced` | crates/ohl-ai/src/rng.rs:80-89 | over one period from any start every output is drawn exactly 2^32 times |
| `Pcg32.BelowIsUnbiased` | crates/ohl-ai/src/rng.rs:95-106 | every residue below the bound has exactly floor(2^32 / bound) accepted outputs |
| `Pcg32.UniformOverPeriod` | crates/ohl-ai/src/rng.rs:95-106 | over one period from any start every residue below the bound is accepted equally often |
| `Pcg32.StepInjective` | crates/ohl-ai/src/rng.rs:72-77 | two generators that step to the same state are the same |
| `Pcg32.StreamsCollide` | crates/ohl-ai/src/rng.rs:43-56 | two stream selectors give the same increment exactly when they agree modulo 2^63 |
| `Pcg32.OverlapIffSameIncrement` | crates/ohl-ai/src/rng.rs:72-77 | two generators pass through a common state on to a common next state exactly when their increments agree |
| `Pcg32.StreamsOverlapIff` | crates/ohl-ai/src/rng.rs:43-56 | whatever their seeds, the generators of two selectors overlap exactly when the selectors agree in their low 63 bits: the documented claim that distinct streams never overlap fails for those that differ in the top bit alone |
| `Pcg32.DistinctStreamsOverlap` | crates/ohl-ai/src/rng.rs:43-56 | the distinct selectors 0 and 2^63 overlap for any seeds |
| `Pcg32.SeedsSeparate` | crates/ohl-ai/src/rng.rs:46-56 | on one stream different seeds start at different states |
| `Pcg32.Rng.WithStream` | crates/ohl-ai/src/rng.rs:46-56 | seeding: step from zero on the stream's odd increment, add the seed, step again |
| `Pcg32.KnownStates` | crates/ohl-ai/src/rng.rs:43-77 | seed 42 on stream 54 starts at the known state, and goes on to the known next one |
| `Pcg32.Rng.FromSnapshot` | crates/ohl-ai/src/rng.rs:59-64 | a snapshot is restored as it was, its increment forced odd |
| `Pcg32.Rng.NextU32` | crates/ohl-ai/src/rng.rs:80-89 | the output of the state before the step, and the state after it |
| `Pcg32.Rng.Below` | crates/ohl-ai/src/rng.rs:95-106 | ends, and returns the residue of the first accepted output, leaving the generator just past it; zero without a draw for bound zero |
| `Pcg32.Rng.NextUnit` | crates/ohl-ai/src/rng.rs:110-114 | a draw in [0, 1) from the top 24 bits of one output |
| `Pcg32.RangeIsEven` | crates/ohl-ai/src/rng.rs:118-124 | a draw from a range is one of 2^24 evenly spaced values, the one the top 24 bits of a single output number; an empty range takes no output |
| `Pcg32.Rng.RangeReal` | crates/ohl-ai/src/rng.rs:118-124 | a draw in [low, high), or low without a draw for an empty range |
| `PlayScript.ParseAcceptsExactlyScripts` | crates/ohl-app/src/script.rs:162-262 | parsing succeeds exactly on the texts whose content lines spell a script within the cumulative limits with at least one tick, and gives the in-order concatenation of the lines' expansions |
| `PlayScript.SpellingIsUnique` | crates/ohl-app/src/script.rs:199-262 | a text spells at most one sequence of tokens and ticks, within the limits or not |
| `PlayScript.EdgesOnFirstTickOnly` | crates/ohl-app/src/script.rs:199-262 | use, reload, slot and flashlight appear only on a line's first tick; everything else is the same on every tick |
| `PlayScript.LookTurnsByTheRequest` | crates/ohl-app/src/script.rs:199-262 | over exact reals the per-tick deltas of a look line add up to the turn asked for |
| `PlayScript.AppliedIsState` | crates/ohl-app/src/script.rs:265-313 | applying tokens one after the other gives the state of the whole token list |
| `PlayScript.ApplyToken` | crates/ohl-app/src/script.rs:265-313 | one token with its arguments is read, applied to the line's state, and the arguments consumed |
| `PlayScript.ParseLine` | crates/ohl-app/src/script.rs:199-262 | a line's outcome: its error in the order of checks, or the steps it appends and the new total |
| `PlayScript.Parse` | crates/ohl-app/src/script.rs:162-187 | the loop over lines computes the specified result, error by error |
| `Numerals.UnsignedReads` | crates/ohl-app/src/script.rs:205-209 | a whole number is read exactly from its decimal writings, with or without a plus sign and leading zeros, and only up to the type's largest value; the writer is a function of n / 10 and n % 10 |
| `Numerals.DecimalReads` | crates/ohl-app/src/script.rs:205-209 | a number written without leading zeros is read as itself, by both readers, exactly when the type holds it |
| `Numerals.StrictReads` | xtask/src/chain_walk.rs:261-266 | the tools' own reader takes exactly the unsigned writings |
| `Numerals.DecimalIsRead` | crates/ohl-app/src/script.rs:291-305 | sign, whole part, point, fraction and exponent are read as plus or minus (whole + fraction / 10^places) times the power of ten, or as infinite from the overflow bound on |
| `Numerals.FloatReads` | crates/ohl-app/src/script.rs:291-305 | a finite value is read exactly from the decimal writings worth that value below the overflow bound |
| `Numerals.SecondsReads` | xtask/src/chain_walk.rs:269-275 | seconds are read exactly from digits, a point and digits, each side no more than 64 bits hold, as the number they write |
| `WrittenScripts.WrittenScriptParses` | crates/ohl-app/src/script.rs:162-262 | a script written out, whatever the gaps between its words, parses exactly when it keeps the limits, and then into what its lines mean, one after the other |
| `WrittenScripts.TwelveForward` | crates/ohl-app/src/script.rs:162-262 | the text "12 forward" parses into twelve steps that hold forward and nothing else |
| `RouteCheck.ValidCandidate` | xtask/src/plan_chain_hop.rs:272-313 | the checker's loop admits exactly the strictly decodable texts that the admission specification admits |
| `RouteCheck.CheckedLineReads` | xtask/src/plan_chain_hop.rs:281-311 | a line the checker accepts is read by the script parser, with the same ticks, although the two split words, read numbers and bound lines differently |
| `RouteCheck.CheckedLinesRead` | xtask/src/plan_chain_hop.rs:281-311 | admitted lines within the checker's counters are read within the parser's, with the same total |
| `RouteCheck.HeaderIsSkipped` | xtask/src/plan_chain_hop.rs:250-268 | the fixed header is nothing but comments to the parser |
| `RouteCheck.AdmittedTextParses` | xtask/src/plan_chain_hop.rs:272-313 | an admitted text parses, into exactly as many steps as ticks the checker summed |
| `RouteCheck.AdmittedBytesParse` | xtask/src/plan_chain_hop.rs:272-313 | the same from bytes, through the checker's strict and the parser's lossy decoding |
| `WrittenRoutes.AdmittedExactly` | xtask/src/plan_chain_hop.rs:272-313 | a text is admitted with a total exactly when it is the header and ended lines whose words are positive tick counts with one of six fixed commands or a turn in hundredths of at most 180 degrees, 1 to 4096 of them, adding up to that total of at most 100,000 |
| `WrittenRoutes.WrittenRouteIsAdmitted` | crates/ohl-app/src/route_planner.rs:521-542 | what the planner writes, whatever the gaps between the words, is admitted with the sum of its ticks exactly when it keeps the limits |
| `WrittenRoutes.OtherTurnsAreRefused` | xtask/src/plan_chain_hop.rs:297-308 | a turn with other than two fraction digits, or by more than 180 degrees, refuses the whole text wherever it stands |
| `WrittenRoutes.AdmittedDoesWhatItSays` | xtask/src/plan_chain_hop.rs:272-313 | an admitted text parses into the expansions of what its lines say, one after the other |
| `SoundCaching.KeysAreInjective` | crates/ohl-app/src/audio.rs:237-245 | different assets with newline-free paths and words, and no file called "!", have different keys |
| `SoundCaching.EmptySentenceCollides` | crates/ohl-app/src/audio.rs:237-245 | a file called "!" and the empty sentence share a key |
| `SoundCaching.FilePlaysIff` | crates/ohl-app/src/audio.rs:122-152 | a file plays exactly when it is there, decodes, and has a sample for each of its channels |
| `SoundCaching.PlayableParts` | crates/ohl-app/src/audio.rs:154-184 | the words of a sentence that decode to frames, in order; the others are skipped |
| `SoundCaching.SoundCache.Touch` | crates/ohl-app/src/audio.rs:187-197 | absent, remembered as nothing, or held; a held key moves to the end of the order |
| `SoundCaching.SoundCache.Insert` | crates/ohl-app/src/audio.rs:200-233 | an asset over the whole budget is stored as nothing; then oldest entries are evicted until both bounds hold |
| `SoundCaching.SoundCache.Resolve` | crates/ohl-app/src/audio.rs:122-184 | one request's answer and the cache it leaves |
| `SoundCaching.EvictionKeepsLongestFit` | crates/ohl-app/src/audio.rs:214-232 | eviction keeps the longest run of most recently used keys that fits both bounds, with exact accounting |
| `SoundCaching.ResolvedKeepsGood` | crates/ohl-app/src/audio.rs:122-233 | one answer keeps the order a duplicate-free listing of the keys, the byte counter the sum of the sizes, and both bounds; the asset asked for survives its own insertion as the most recent, and no other entry changes |
| `SoundCaching.RunKeepsGood` | crates/ohl-app/src/audio.rs:122-233 | the accounting and both bounds hold after any sequence of requests, for any source whose buffers leave the counter headroom |
| `SoundCaching.RunAnswers` | crates/ohl-app/src/audio.rs:122-233 | every answer of any run leaves behind what one answer does: the asset asked for as the most recent, and no other entry changed |
| `SoundCaching.ProgramCacheIsExact` | crates/ohl-app/src/audio.rs:52-121 | with the program's own limits, and the largest buffer decoding and joining can give, there is always headroom, so accounting and bounds are exact in every run |
| `SoundCaching.HoldsMostRecentlyUsed` | crates/ohl-app/src/audio.rs:187-233 | after any run the held keys are exactly the most recently used ones, in order of last use |
| `SoundCaching.AgreementIffKeysTellApart` | crates/ohl-app/src/audio.rs:122-245 | on a fixed source, over every sequence of requests a fresh cache answers as uncached decoding does exactly when the assets' keys tell their sounds apart |
| `SoundCaching.AgreementIffKeysDiffer` | crates/ohl-app/src/audio.rs:122-245 | over every source, with any decoder and any joiner, and every sequence of requests it does exactly when no two of the assets share a key |
| `SoundCaching.AgreementUnderPolicy` | crates/ohl-app/src/audio.rs:122-245 | for assets named in one line, as the path policy demands, it does exactly when they do not hold both a file called "!" and an empty sentence, which the constructor of sentences (crates/ohl-gameplay/src/sounds.rs) never makes; with both the program's own joiner misleads |
| `SoundCaching.WellNamedAssetsAgree` | crates/ohl-app/src/audio.rs:122-245 | well-named assets always agree with uncached decoding |
| `Capturing.ReadBounded` | xtask/src/chain_walk.rs:553-567 | the reading loop computes the specified assembly: a failed read, the limit, or the decoded whole |
| `Capturing.ChunkingDoesNotMatter` | xtask/src/chain_walk.rs:553-567 | an error-free stream gives the same result however it is cut into chunks: the limit failure exactly when it is too long, otherwise its decoding |
| `Capturing.BrokenStream` | xtask/src/chain_walk.rs:553-567 | a failed read is reported only while the limit still holds |
| `Capturing.Watch` | xtask/src/chain_walk.rs:623-662 | the polling loop returns what its turns' answers determine; whenever it returns its calls have collected the child's end, and it has killed the child exactly when the run is no exit |
| `Capturing.ExitIsTheFirstEnded` | xtask/src/chain_walk.rs:636-649 | an exit has the code of the first answer that says the child ended, or -1 when that has no code |
| `Capturing.CaptureIsSound` | xtask/src/chain_walk.rs:599-663 | under every interleaving a run is returned only after the child has been waited on, and for the cause it names: text only with the child's own exit and then all of the stream, empty text with every other end; and what the reader sent is the bounded read of its stream |
| `Capturing.ExitCodeIsTheChilds` | xtask/src/chain_walk.rs:636-649 | under every interleaving an exit is reported only with the code the child exited with by itself, or with -1 when a signal ended it |
| `Capturing.FindingsAreReported` | xtask/src/chain_walk.rs:623-662 | what the parent finds at its turn it reports: a failed reading, a reader that is gone, a child that cannot be asked after, an exit with all its text, or else the deadline |
| `Capturing.NoReadFailureAfterText` | xtask/src/chain_walk.rs:623-662 | once the text has been received no reading failure is reported |
| `Capturing.RunIsFinal` | xtask/src/chain_walk.rs:599-663 | what was returned stays, whatever the reader, the child and the clock still do |
| `Capturing.ParentIsItsLoop` | xtask/src/chain_walk.rs:623-662 | the parent among the others computes what its loop computes from the same answers |
| `Capturing.ParentReturnsInTime` | xtask/src/chain_walk.rs:656-662 | the number of turns is bounded by the deadline over the sleep, even if the reader never ends |
| `Capturing.QuietExitIsCaptured` | xtask/src/chain_walk.rs:599-663 | a child that says nothing and exits is captured as just that, under some interleaving |
| `Capturing.ParentIsNeverStuck` | xtask/src/chain_walk.rs:623-662 | a watching parent can always take its next step by itself |
| `WorkerPool.PoolKeepsJobs` | xtask/src/campaign_smoke.rs:458-494 | under every interleaving queued, held and reported jobs together are the original multiset |
| `WorkerPool.EachReportedOnceIffNoPanic` | xtask/src/campaign_smoke.rs:458-494 | once every thread is joined each job is reported exactly once exactly when no worker panicked |
| `WorkerPool.PoolEnds` | xtask/src/campaign_smoke.rs:458-494 | every interleaving is bounded in length, and another step is possible exactly while some thread is not over |
| `WorkerPool.ChapterOrderIff` | xtask/src/campaign_smoke.rs:458-512 | over every interleaving the reports of each chapter come in the order its jobs were built exactly when there is at most one worker or no chapter holds two different jobs |
| `WorkerPool.GroupInCampaignOrder` | xtask/src/campaign_smoke.rs:496-512 | under that condition the summary's group of a chapter is the chapter's maps in campaign order |
| `WorkerPool.EveryReportHasAColumn` | xtask/src/campaign_smoke.rs:119-129 | every category's key is one of the seven columns |
| `WorkerPool.ReportsStandUnderTheirHeading` | xtask/src/campaign_smoke.rs:119-129 | every report stands in the column whose heading names its category |
| `WorkerPool.ColumnCountsItsHeading` | xtask/src/campaign_smoke.rs:525-553 | a column counts exactly the reports its heading names: crashes under Crash, timeouts under Timeout |
| `WorkerPool.BucketCounts.Tally` | xtask/src/campaign_smoke.rs:540-549 | the column counts of some reports |
| `WorkerPool.BucketCounts.Add` | xtask/src/campaign_smoke.rs:555-559 | the counts of two tallies added column by column |
| `WorkerPool.WriteSummary` | xtask/src/campaign_smoke.rs:567-606 | one row per chapter with its counts and total, and the grand totals |
| `WorkerPool.GrandIsWeighted` | xtask/src/campaign_smoke.rs:567-606 | the grand totals count each report as often as its chapter's title is listed |
| `WorkerPool.GrandTotalsCountEverything` | xtask/src/campaign_smoke.rs:505-606 | with distinct titles that cover the reports the grand totals are the counts over all of them |
| `WorkerPool.TotalIsNumberOfReports` | xtask/src/campaign_smoke.rs:551-553 | a row's total is the number of its reports |
| `WorkerPool.SummaryIgnoresInterleaving` | xtask/src/campaign_smoke.rs:458-606 | two panic-free smokes over the same maps, with any workers and interleavings, give the same rows, and grand totals that count every job |
| `WorkerPool.VerdictIsRightIff` | xtask/src/campaign_smoke.rs:458-494 | in every run the verdict is right exactly when some reported map fails, or every map still queued or lost with its worker passes |
| `WorkerPool.VerdictIsExact` | xtask/src/campaign_smoke.rs:704-710 | without a panic the smoke succeeds exactly when every map of the campaign passes |
| `WorkerPool.PanicHidesAFailure` | xtask/src/campaign_smoke.rs:458-494 | with distinct maps every interleaving in which a worker panics hides a failure for some way the maps may behave |
| `Squads.Built` | crates/ohl-ai/src/squad.rs:116-159 | the roster equals its declarative form: each of the first 256 distinct names with its first four distinct monsters, the first its leader, the exact index of the names, and everyone left over |
| `Squads.SquadRoster.Build` | crates/ohl-ai/src/squad.rs:116-127 | the two loops, declared leaders first, build that roster |
| `Squads.SquadRoster.Enlist` | crates/ohl-ai/src/squad.rs:129-159 | one candidate joins, founds, is ignored or is rejected |
| `Squads.EnlistedDeclares` | crates/ohl-ai/src/squad.rs:129-159 | one more candidate takes the declarative form to the declarative form |
| `Squads.EveryoneIsPlacedOrRejected` | crates/ohl-ai/src/squad.rs:116-159 | every named candidate is in the squad found under its name, or among the rejected |
| `Squads.RejectedExactly` | crates/ohl-ai/src/squad.rs:129-159 | the rejected are exactly the monsters of the candidates that have no place in their squad |
| `Squads.PlacedIsNotRejected` | crates/ohl-ai/src/squad.rs:129-159 | for a monster offered once, rejected means exactly without a place |
| `Squads.DeclaredLeaderLeads` | crates/ohl-ai/src/squad.rs:107-127 | a squad is led by a declared leader whenever one asked for its name |
| `Squads.SquadRoster.ShareEnemy` | crates/ohl-ai/src/squad.rs:199-207 | shares with the first squad of the monster and says whether there was one |
| `Squads.SharingReachesTheSquad` | crates/ohl-ai/src/squad.rs:199-214 | what is shared is read back by exactly the monsters of that squad, and membership does not change |
| `Squads.ClearingForgets` | crates/ohl-ai/src/squad.rs:217-222 | clearing forgets every shared enemy and keeps the membership |
| `Schedules.ScheduleRunner.Advance` | crates/ohl-ai/src/schedule.rs:440-486 | one tick for any executor: outcome, next runner, generator and executor state |
| `Schedules.ScheduleRunner.CountDown` | crates/ohl-ai/src/schedule.rs:488-507 | a timing task's tick |
| `Schedules.ScheduleRunner.Restore` | crates/ohl-ai/src/schedule.rs:409-424 | a runner rebuilt through the name lookup |
| `Schedules.CallsFollowTheSchedule` | crates/ohl-ai/src/schedule.rs:440-486 | in any run after a start the calls are begins and resumes of the non-timing tasks in strict task order, each begun at most once and resumed only right after, and every earlier task has been begun |
| `Schedules.InterruptedMakesNoCall` | crates/ohl-ai/src/schedule.rs:450-453 | a tick whose conditions hit the mask makes no call and clears the runner |
| `Schedules.ClearedIffNewScheduleNeeded` | crates/ohl-ai/src/schedule.rs:301-308 | a new schedule is asked for exactly when the runner is cleared, with nothing of the old one left |
| `Schedules.WaitLastsExactly` | crates/ohl-ai/src/schedule.rs:488-507 | with a constant step an uninterrupted wait lasts exactly max(1, ceil(seconds / step)) ticks |
| `Schedules.ScheduleEnds` | crates/ohl-ai/src/schedule.rs:437-488 | after any uninterrupted run of answers: a failed task gives the schedule up and is told as failed, the last completion ends it and is told as done, any other completion moves to the next task, and one that goes on is resumed |
| `Schedules.RestoredIsInside` | crates/ohl-ai/src/schedule.rs:409-424 | a restored runner is cleared, or inside its schedule with a timer that is not negative |
| `Brains.CombatNeedsASighting` | crates/ohl-ai/src/brain.rs:228-248 | the default state machine enters combat exactly on a sighting, unless dead, scripted or playing dead |
| `Brains.AttackingIffChosen` | crates/ohl-ai/src/brain.rs:302-350 | the default brain selects an attacking schedule exactly in combat with something in reach and nothing more pressing |
| `Brains.SelectMeans` | crates/ohl-ai/src/brain.rs:302-350 | the default brain's choice, schedule by schedule, exactly when it is made: an alerted monster that heard something investigates, one whose task failed gives up for a while |
| `Brains.NextStateMeans` | crates/ohl-ai/src/brain.rs:228-246 | combat exactly with an enemy seen, alert exactly for anything else noticed or after combat, idle exactly while nothing ever was |
| `Brains.HarmInterrupts` | crates/ohl-ai/src/brain.rs:32-197 | danger interrupts every schedule but escape, flight and those nothing interrupts; heavy damage all but those, a blow and flight; light damage only rest, chase and hunt |
| `Brains.PublishedSetOnlyDeath` | crates/ohl-ai/src/brain.rs:31-197 | the only state a published schedule sets is death |
| `Brains.NameFindsSchedule` | crates/ohl-ai/src/brain.rs:218-220 | every published name finds its own schedule |
| `Brains.RestoreRoundTrip` | crates/ohl-ai/src/schedule.rs:409-424 | a runner inside a published schedule survives being saved by name and restored |
| `Brains.RestoredIsPublished` | crates/ohl-ai/src/schedule.rs:409-424 | whatever a save says, a restored runner runs only a published schedule |
| `Senses.Look` | crates/ohl-ai/src/senses.rs:432-502 | the sight pass: conditions, sightings and enemy |
| `Senses.Listen` | crates/ohl-ai/src/senses.rs:587-632 | the hearing pass |
| `Senses.SelectEnemy` | crates/ohl-ai/src/senses.rs:541-560 | an enemy is chosen exactly when a living hostile is seen, and is one |
| `Senses.SightingRelationship` | crates/ohl-ai/src/senses.rs:524-536 | with a prisoner on either end no relationship is hostile; without one, or when it is not hostile, it is passed through |
| `Senses.SightSparesPrisoners` | crates/ohl-ai/src/senses.rs:432-502 | a sighting that could be an enemy involves no prisoner on either end and nothing that cannot be hurt |
| `Senses.SeeEnemyIffChosen` | crates/ohl-ai/src/senses.rs:498-501 | sight reports an enemy seen exactly when it chooses one |
| `Senses.ChoiceIsWorstRegarded` | crates/ohl-ai/src/senses.rs:541-560 | nobody worse regarded than the chosen enemy is seen |
| `Senses.ChoiceIgnoresOrderIff` | crates/ohl-ai/src/senses.rs:541-560 | among possible enemies in distinct slots every order of the sightings gives the same choice exactly when there is none, or one is better than every other |
| `Senses.ChoiceIgnoresOrder` | crates/ohl-ai/src/senses.rs:541-560 | so it is whenever sightings equally regarded are equally near or apart by more than the tolerance |
| `Senses.ToleranceDependsOnOrder` | crates/ohl-ai/src/senses.rs:541-560 | three sightings at neighbouring 32-bit distances go round in a circle, so that the choice depends on their order, contrary to the documented independence |
| `Senses.HearsTheMostInteresting` | crates/ohl-ai/src/senses.rs:587-632 | the sound turned to is audible, a danger whenever one is audible, and the nearest of its kind |
| `AiTick.AiWorld.TickWorld` | crates/ohl-ai/src/world.rs:500-549 | the whole tick over any orders of the store's answers: world, events, squads, sounds, damage, generator and counter |
| `AiTick.AiWorld.RebuildSquads` | crates/ohl-ai/src/world.rs:552-589 | the squads formed anew, each keeping what its name shared |
| `AiTick.AiWorld.TickOne` | crates/ohl-ai/src/world.rs:592-926 | one monster's tick, step by step, equals its specification |
| `Prisoners.PrisonerTick` | crates/ohl-ai/src/world.rs:637-926 | in its tick a prisoner with a default brain and a published schedule or none, whatever its memory, state and pending conditions, ends without an enemy and reports no attack |
| `Prisoners.PrisonerConditions` | crates/ohl-ai/src/world.rs:617-695 | what a prisoner's conditions say of an enemy, of ammunition and of reach is exactly what its pending conditions said |
| `Prisoners.PrisonerFightsIffTold` | crates/ohl-ai/src/world.rs:617-926 | a prisoner that no script holds ends its tick in combat exactly when its pending conditions report an enemy and it is alive and neither dead, scripted nor playing dead; and with an attacking schedule exactly when those conditions also report something in reach and no lack of ammunition, it perceives neither danger nor what it fears, and it needs a new schedule |
| `Prisoners.HeldPrisonerTick` | crates/ohl-ai/src/world.rs:796-828 | one that a script holds keeps its state, or is dead, and loses its schedule |
| `Prisoners.PrisonerChoosesNobody` | crates/ohl-ai/src/world.rs:666-695 | a prisoner's sight chooses nobody and reports no enemy seen |
| `Prisoners.BeginIsCalm` | crates/ohl-ai/src/world.rs:1314-1417 | no task but an attack reports an attack, none gives an enemy, and none but the setting of a state changes the state |
| `Enmity.EnemiesAreTraced` | crates/ohl-ai/src/world.rs:592-926 | any monster's tick reports only for itself, and an enemy it remembers afterwards that is a prisoner was remembered before or hurt it in this tick |
| `WorldRuns.OrderIsEveryoneOnce` | crates/ohl-ai/src/world.rs:511-516 | every thinking monster is ticked exactly once |
| `WorldRuns.RebuiltSharesNone` | crates/ohl-ai/src/world.rs:552-589 | forming the squads anew shares no prisoner |
| `WorldRuns.TickTracesEnemies` | crates/ohl-ai/src/world.rs:500-549 | the tracing of enemies over a whole tick, for every monster at once |
| `WorldRuns.PrisonersNeverFight` | crates/ohl-ai/src/world.rs:145-190 | in every tick of every run, between host changes that may set any memory and any pending conditions, every prisoner ends without an enemy and reports no attack, is in combat exactly when it was told from outside or held there, and nobody takes one for an enemy but by being hurt by it |
| `Perceptions.AcquiredAttackIsInReach` | crates/ohl-ai/src/world.rs:681-721 | an attack condition is raised only by an enemy seen now and within that attack's reach |
| `Perceptions.InReachComesFirst` | crates/ohl-ai/src/world.rs:681-690 | a monster that attacks one place takes the worst regarded hostile in reach ahead of sight's choice; with nobody there, and for any other monster, it is sight's choice |
| `Perceptions.OccludedIsKeptIffNear` | crates/ohl-ai/src/world.rs:722-744 | an enemy out of sight is kept exactly while it lives within 256 units, and its last seen position is not touched |
| `Perceptions.SquadIsTold` | crates/ohl-ai/src/world.rs:691-721 | a seen enemy is remembered and shared with exactly the monster's squad |
| `Perceptions.DeadIsInertIff` | crates/ohl-ai/src/brain.rs:302-336 | a dead monster is given the inert schedule exactly when it neither hears danger nor sees what it fears |
| `Perceptions.AttacksIff` | crates/ohl-ai/src/world.rs:592-926 | a monster with a default brain and a published schedule or none reports an attack in its tick exactly when no script holds it, it is no prisoner, the task it is about to begin attacks, what it senses does not interrupt, and the report cap is not reached; being dead does not stop it, and the dead stay dead |
| `Perceptions.FacingEndsIff` | crates/ohl-ai/src/world.rs:1191-1211 | a standing monster that resumes a facing task has done so within max(1, ceil(distance / step)) ticks when ticks take time; when they do not, exactly when it faces its target already |
| `Movement.TickMoves` | crates/ohl-ai/src/world.rs:1079-1133 | a monster ends its tick where the space takes it toward its waypoint exactly when its task leaves it with speed and an unfinished route, with the turn, the next waypoint within 8 units and the halt at the end; otherwise where it was |
| `Movement.WaypointIsReached` | crates/ohl-ai/src/world.rs:1079-1133 | with steps that come nearer by speed times dt, a waypoint is reached on exactly the tick max(1, ceil((distance - 8) / step)), and not before |
| `Movement.RouteIsWalked` | crates/ohl-ai/src/world.rs:1079-1133 | a route of any number of waypoints is walked to its end, where the speed is zero, within the ticks its legs take one by one |
| `Movement.StraightLeadsOn` | crates/ohl-ai/src/world.rs:1138-1160 | a walker's step where there is nothing to collide with comes nearer by speed times dt |
| `Movement.HeldWalksOn` | crates/ohl-ai/src/world.rs:800-822 | a monster that a script holds goes on along its route, whatever it meets |
| `Movement.BlockedAfter25Ticks` | crates/ohl-ai/src/movement.rs:372-390 | a monster that does not get on is told that it is blocked exactly from the 25th such tick in a row on |
| `Behaviours.ActsOnWhatItKnows` | crates/ohl-ai/src/world.rs:838-861 | a task acts on where the enemy is in the snapshot, if it is there, and on where it was last known to be |
| `Behaviours.RouteLeadsThere` | crates/ohl-ai/src/world.rs:1213-1229 | a way is laid straight to its goal or to a stop just so far short of it; without a goal the task fails |
| `Behaviours.CoverIsAway` | crates/ohl-ai/src/world.rs:1231-1260 | cover is looked for 320 units further from the threat, straight away from it, as far as the mover gets |
| `Behaviours.ChasesTheEnemy` | crates/ohl-ai/src/brain.rs:84-96 | chasing an enemy is running to 56 units from where it is, or else from where it was last known to be |
| `Behaviours.HuntsTheEnemy` | crates/ohl-ai/src/brain.rs:97-113 | hunting is running to where the enemy was last known to be |
| `Behaviours.TakesCoverFromDanger` | crates/ohl-ai/src/brain.rs:70-83 | taking cover is running to cover from the enemy, from where it was last known to be, or from what was last headed for |
| `Behaviours.Flees` | crates/ohl-ai/src/brain.rs:159-172 | fleeing is crying out, to be heard 384 units around, and then running to cover |
| `Behaviours.StandsStill` | crates/ohl-ai/src/brain.rs:32-197 | the schedules carried out standing halt the monster before anything but a change of posture |
| `Behaviours.DiesDown` | crates/ohl-ai/src/brain.rs:173-185 | the dying schedule leaves its monster dead, without health, way or speed, and reports the death |
| `Behaviours.Strikes` | crates/ohl-ai/src/world.rs:1379-1386 | an attack reports itself and whom it is aimed at |
| `Behaviours.ChangesAreReported` | crates/ohl-ai/src/world.rs:1364-1406 | a task that sets posture, state or enemy leaves it so, and reports it exactly if it was not so before |
| `Behaviours.AwaitsItsArrival` | crates/ohl-ai/src/world.rs:1317-1325 | waiting for movement is over exactly on arrival, and fails exactly when stuck for 25 ticks on the way |
| `Behaviours.TurnsToWhatItFaces` | crates/ohl-ai/src/world.rs:1191-1211 | a facing task aims at the direction of what it faces, turns at up to 300 degrees a second, and fails with nothing to face |
| `Behaviours.WandersWhereItCan` | crates/ohl-ai/src/world.rs:1283-1311 | wandering heads for what can be walked of a drawn way exactly when that is at least 16 units |
| `Behaviours.DecidesAndBegins` | crates/ohl-ai/src/world.rs:826-857 | a monster goes into the state its brain decides on and, without a schedule, begins what the brain selects in that state, and reports both |
| `Behaviours.ScheduleIsFollowed` | crates/ohl-ai/src/world.rs:868-900 | a schedule that ended, failed or was interrupted is reported, and followed by what the brain selects knowing which; any other is kept |
| `Behaviours.FailureIsAnswered` | crates/ohl-ai/src/brain.rs:302-336 | with a default brain a calm monster whose task failed gives up for a while |
| `Noticing.HearsIff` | crates/ohl-ai/src/senses.rs:587-632 | a condition of hearing is raised exactly by a sound of its kind that carries to the ears |
| `Noticing.SeesIff` | crates/ohl-ai/src/senses.rs:432-497 | a condition of sight is raised exactly by something within sight that is so regarded, where hostility does not count for prisoners and the impervious |
| `Noticing.SightingsAreExact` | crates/ohl-ai/src/senses.rs:432-497 | what is seen is exactly what is within sight, each as it is regarded, where it is and how far, alive or not, facing the viewer or not |
| `Noticing.SnapshotHolds` | crates/ohl-ai/src/world.rs:552-590 | the snapshot before the tick shows exactly the listed entities, each as it is |
| `Noticing.NoticesExactly` | crates/ohl-ai/src/world.rs:592-860 | every condition of a tick is there exactly if it was pending, is seen or heard, dawns of the enemy, comes of the damage, or is being stuck; and the monster heads for the most interesting sound |
| `Noticing.RemembersExactly` | crates/ohl-ai/src/world.rs:681-790 | whom a monster remembers after its senses: the enemy seen, one out of sight alive within 256 units, one its squad tells of, or whoever hurt it, in this order |
| `Noticing.EnemyIsReported` | crates/ohl-ai/src/world.rs:640-790 | gaining, changing and losing an enemy is reported, as the last thing of the tick's senses |
| `Noticing.SoundsLast` | crates/ohl-ai/src/senses.rs:179-190 | a sound lasts exactly as long as its lifetime says |
| `Noticing.TickCloses` | crates/ohl-ai/src/world.rs:540-552 | a tick leaves no damage for the next, counts itself, lets sounds age, and reports its first 4096 events |
| `Determinism.TickIgnoresOrder` | crates/ohl-ai/src/world.rs:500-549 | for any two orders of the store's answers a tick gives the same world, events, squads, sounds and generator |
| `Determinism.SnapshotIgnoresOrder` | crates/ohl-ai/src/world.rs:1044-1067 | the snapshot does not depend on query order |
| `Determinism.OffersIgnoreOrder` | crates/ohl-ai/src/world.rs:552-577 | the squad candidates do not depend on query order |
| `Determinism.DigestIgnoresOrder` | crates/ohl-ai/src/world.rs:935-980 | what is fed to the digest does not depend on query order |
| `Replays.DigestDecidesTick` | crates/ohl-ai/src/world.rs:929-1042 | moments that are fed to the digest alike and agree on a list of unfed things, with schedules known by their names, have the same next tick: the same events, sounds, squads and generator, fed alike again and agreeing again; how long ago and how far away an enemy was, where a route was meant to end and who is in a squad are not on the list |
| `Replays.RunsReplay` | crates/ohl-ai/src/world.rs:929-1042 | so runs of any number of ticks from such moments report the same, tick by tick |
| `Replays.NamesDecideSchedules` | crates/ohl-ai/src/brain.rs:218-220 | published schedules are known by their names: equal names are equal schedules |
| `DigestGaps.StartedIsNeeded` | crates/ohl-ai/src/world.rs:929-1042 | on the list rightly, whether the current task has begun: two moments that differ in nothing else, are fed alike, and report different things next |
| `DigestGaps.MoveTargetIsNeeded` | crates/ohl-ai/src/world.rs:929-1042 | the same for where the monster is to go |
| `DigestGaps.CoverIsNeeded` | crates/ohl-ai/src/world.rs:929-1042 | the same for the cover it found |
| `DigestGaps.BrainIsNeeded` | crates/ohl-ai/src/world.rs:929-1042 | the same for which brain it has |
| `DigestGaps.BrainsAreNeeded` | crates/ohl-ai/src/world.rs:929-1042 | the same for what the brains are |
| `DigestGaps.GenerationIsNeeded` | crates/ohl-ai/src/world.rs:929-1042 | the same for which occupant of its slot it is |
| `DigestGaps.EnemyGenerationIsNeeded` | crates/ohl-ai/src/world.rs:929-1042 | the same for which occupant of its slot its enemy is |
| `DigestGaps.HeldIsNeeded` | crates/ohl-ai/src/world.rs:929-1042 | the same for whether a script holds it |
| `DigestGaps.PrisonerIsNeeded` | crates/ohl-ai/src/world.rs:929-1042 | the same for whether it is a prisoner |
| `DigestGaps.ImperviousIsNeeded` | crates/ohl-ai/src/world.rs:929-1042 | the same for whether what it sees can be hurt |
| `DigestGaps.TagIsNeeded` | crates/ohl-ai/src/world.rs:929-1042 | the same for the squad it asks to join |
| `DigestGaps.SharedEnemyIsNeeded` | crates/ohl-ai/src/world.rs:929-1042 | the same for the enemy a squad shares |
| `DigestGaps.SharedPositionIsNeeded` | crates/ohl-ai/src/world.rs:929-1042 | the same for where a squad saw it |
| `DigestGaps.DamageIsNeeded` | crates/ohl-ai/src/world.rs:929-1042 | the same for the damage done |
| `DigestGaps.SoundsAreNeeded` | crates/ohl-ai/src/world.rs:929-1042 | the same for what the sounds are, beyond their number |
| `DigestGaps.BeginsToTurn` | crates/ohl-ai/src/world.rs:1191-1211 | a tick that begins a turn leaves the begun task of the first pair behind |
| `DigestGaps.ScheduleIsNeeded` | crates/ohl-ai/src/world.rs:1004-1015 | that names stand for schedules is needed as well: were one name given to two, contrary to the stable identifier it is documented to be, the digest would be fed the same of both |
| `Ordering.SortedIsUnique` | crates/ohl-ai/src/world.rs:1065-1066 | sorting by distinct ids gives one result whatever the order given |
| `Scripts.ScriptRunner.Trigger` | crates/ohl-ai/src/scripts.rs:337-343 | an activation starts a dormant script only |
| `Scripts.ScriptRunner.Update` | crates/ohl-ai/src/scripts.rs:396-422 | one update's step and next script |
| `Scripts.ScriptRunner.TickMoving` | crates/ohl-ai/src/scripts.rs:435-468 | waiting for the mark, with its timeout |
| `Scripts.ScriptRunner.TickPlaying` | crates/ohl-ai/src/scripts.rs:470-499 | playing, and what follows completion |
| `Scripts.StepTellsTheTruth` | crates/ohl-ai/src/scripts.rs:396-499 | an action is asked for exactly when the script holds its monster; taking and letting go are reported exactly; letting go has exactly one reason |
| `Scripts.AsksAsItsMapSays` | crates/ohl-ai/src/scripts.rs:396-499 | while it fetches its monster a script asks exactly for what its map says, a run for a running one, and while it holds it for its sequence to be played |
| `Scripts.EveryRunKeepsInv` | crates/ohl-ai/src/scripts.rs:337-499 | triggers plus restarts minus releases is one exactly while the monster is held; the mark is never waited for through the timeout; a script that does not repeat completes at most once; a possession teleports once after a trigger and twice after a repeat |
| `Scripts.DoneStaysDone` | crates/ohl-ai/src/scripts.rs:337-422 | a finished script never takes its monster again |
| `Scripts.RepeatTeleportsTwice` | crates/ohl-ai/src/scripts.rs:404-413 | a run in which the second teleport of a repeat happens, although one is documented as enough |
| `Spawners.MonsterMaker.Tick` | crates/ohl-ai/src/spawner.rs:244-262 | one tick of a maker |
| `Spawners.MonsterMaker.NoteSpawned` | crates/ohl-ai/src/spawner.rs:226-235 | a spawn is counted, and the last of the quota stops the maker |
| `Spawners.EveryRunKeepsInv` | crates/ohl-ai/src/spawner.rs:125-262 | under any triggers, deaths and steps a maker stays within its quota and its live cap, counts every spawn, and spawns at least its delay apart within one active stretch |
| `Spawners.ExhaustedForGood` | crates/ohl-ai/src/spawner.rs:226-262 | a used-up quota stays used up |
| `Spawners.SpawnsExactlyOnTime` | crates/ohl-ai/src/spawner.rs:244-262 | with room, quota and a steady step the next spawn comes after exactly max(1, ceil(delay / step)) ticks |
| `Spawners.RestoredWithinQuota` | crates/ohl-ai/src/spawner.rs:187-198 | restoring a save cannot exceed the quota |
| `Turning.Normalized` | crates/ohl-ai/src/movement.rs:447-460 | a wrapped yaw lies in [-180, 180) |
| `Turning.NormalizedIsSameDirection` | crates/ohl-ai/src/movement.rs:447-460 | and is the same direction |
| `Turning.ShortTurnIsShortest` | crates/ohl-ai/src/movement.rs:427-438 | no turn that reaches the target is shorter than the one taken |
| `Turning.StepComesCloser` | crates/ohl-ai/src/movement.rs:427-443 | a turn that does not arrive comes closer by exactly its step |
| `Turning.TurningArrivesExactly` | crates/ohl-ai/src/movement.rs:427-443 | repeated turning arrives in exactly max(1, ceil(distance / step)) turns, at the target itself |
| `Turning.FacingNeedsTime` | crates/ohl-ai/src/world.rs:1202-1211 | without a step a turn ends only within the tolerance of its target, and changes nothing otherwise |
| `ChainReport.ParseReport` | xtask/src/chain_walk.rs:279-329 | the reading loop computes the tally of the classified lines |
| `ChainReport.PassesIffIsPass` | xtask/src/chain_walk.rs:202-434 | a walk passes exactly when its info lines hold one well-formed depth between max(1, k) and 17, one well-formed duration, one benign ending, and nothing garbled or given twice |
| `WrittenReports.ReportReads` | xtask/src/chain_walk.rs:276-325 | a line counts as a depth, as seconds, as one of the five endings or as a hop exactly when it is printed as one, and with the number it prints |
| `WrittenReports.SpoilsIff` | xtask/src/chain_walk.rs:276-325 | a line spoils the report exactly when it looks like a field of it and is not as fields are printed |
| `ChainReport.EndingIsTold` | xtask/src/chain_walk.rs:313-325 | of a walk that ended once the report tells whether it arrived dead or entered a map again |
| `ChainReport.VerdictIgnoresOrder` | xtask/src/chain_walk.rs:279-434 | reordering the lines does not change the verdict |
| `ChainReport.VerdictIgnoresUnrelated` | xtask/src/chain_walk.rs:279-434 | adding unrelated lines does not either |
| `ChainReport.TextVerdictIgnoresOrder` | xtask/src/chain_walk.rs:279-434 | the same for texts |
| `ChainAssembly.AssembleChain` | xtask/src/chain_walk.rs:153-179 | each error exactly when it applies; otherwise the unbroken run of hops up to a gap or the bound, one file each |
| `ChainAssembly.ChainLengthIsUnique` | xtask/src/chain_walk.rs:146-149 | a chain ends in one place only |
| `CrateGraph.CheckEdges` | xtask/src/graph.rs:250-280 | the loops report the violations in order |
| `CrateGraph.ReportIsExact` | xtask/src/graph.rs:250-280 | the report is exactly the unknown crates and the edges not permitted |
| `CrateGraph.CleanIsAcyclic` | xtask/src/graph.rs:14-280 | a map with nothing to report has no cycle, and every crate reaches only what the table permits |
| `CrateGraph.OnlyTheRoot` | xtask/src/graph.rs:11-212 | only the composition root may depend on the engine and on the test worker, which is documented as development only |

## Left out

- AiTick.TickedOne: one monster's tick is specified as a composition of value functions, one per stage of the source, and the method calls them in order; updates of single fields through references and the aliasing of component borrows are not modelled.
- WorldRuns.PrisonersNeverFight: prisoners are driven by the default brain; other monsters may have any brain, but no claim is made about prisoners with another one, or running a schedule that is not published.
- PlayScript.LookTurnsByTheRequest: over exact reals; rounding of 32-bit floats is not modelled here or anywhere else.
- SoundCaching.AgreementIffKeysDiffer: each source stays as it is; files that change while the cache lives are not modelled.
- Non-finite floats: the guards that reject or reset them are not modelled, since every number is a real.
- UTF-8 decoding is a parameter, with the law that replacing decoding agrees with strict decoding where that succeeds.
- WAV decoding, joining of buffers, reading of assets and the file system are parameters.
- Vector lengths, view cones, visibility, line of sight, headings, movement steps and reachable points are parameters of the tick; the geometry behind them is not part of this model.
- The node-graph navigator, the boss and aircraft components and the audio mixer are not part of this model; a tick is that of a world without them.
- Damage arrives as an arbitrary summary per monster; how several hits are summed is not modelled.
- The provisional relationship table: every table is allowed.
- Bits of a condition set that have no name, which only a save could carry.
- Replays.DigestDecidesTick: the digest is modelled by the sequence of values fed to it, as typed fields rather than bytes; that different feeds may come to the same bytes, or the same digest, is not modelled.
- Replays.RunsReplay: ticks with no host changes between them; after one, agreement has to be established again.
- Per-arrival inventory lines of a chain walk, which do not feed the verdict, and the rendering of summaries as text.
- The planner's own report and the order of checks around child processes in `xtask/src/plan_chain_hop.rs`, which is plumbing between parts modelled here.
- Following, tag conversions, settings, logging, rendering and windowing, which would only add easy members.
- Counters that a run cannot reach in practice (the tick counter, a maker's spawn count) are unbounded here.
