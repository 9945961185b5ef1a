# A verified model of the harness and the hub

This project models the parts of the system where state, crashes and time make mistakes easy, and proves what they promise over every run.

- **The session journal and the turn loop.** A turn asks the model, journals what it says, asks about and runs its tool calls, and hands the results back; a process that dies is carried on from the journal. `Protocol` is that as a state machine with a crash as one of its steps. `JournalFile` is its journal byte by byte. `Turns` is the loop itself, an agent whose every change to the conversation or the journal is a step of that machine. The upstream, the tools and the operator are `Outside` and free to do anything; they keep their own records, shared by an agent and its subagents, and what the loop is held to is stated on those.
- **Compaction.** Old tool outputs become notes and old history becomes a summary that a later compaction reads back. `Pruning`, `Cutting`, `Summary` and `Remembering` are the operations; `Memory` says what survives any number of them, and `Lives` that it does so in the loop.
- **The hub's stores.** A sequenced log per channel with retention, kept in memory or on disk (`Frames`, `FrameStores`), its readers (`Readers`), the lease table (`Claims`) and the replica that drains the log (`Replica`).
- **Two dense pieces.** The event-stream decoder (`Sse`) and the schema that undoes a strict wire's padding (`Schema`).

Text is a Dafny `string` with one character per UTF-8 byte, so lengths are the lengths the code measures. Integers are unbounded except where the code's own bound shows: a rollup's number must fit 63 bits, a restated message's number must print in 20 digits. The bytes-per-token rate is a real between 1 and 16 and a token count is the ceiling of a division.

Some properties one might expect are false of the code, and are stated here as the condition under which they hold, with the case that breaks them:

- a fully answered response is restored as it was lived exactly when no two of its calls share an id (`Journal.RestoredAsLivedIffDistinct`);
- a line that a dying process left unfinished is the journal's last, and costs nothing more, only until a restart appends to it: what was read and what is appended both come back exactly when the file was left at the start of a line, and a file cut within a character is not read at all (`JournalFile.AppendedComesBackIff`, `JournalFile.LostLineEnd`, `JournalFile.TornFile`);
- the call lines of a summary are read back as they were printed exactly when none but the last ends in a carriage return (`Summary.CallsReadBackIff`, `LostReturn.CarriageReturnIsLost`);
- cutting leaves an operator's message as it is exactly when it has at most 8000 bytes or already reads as it would once cut, which a message of 8029 bytes can (`Recutting.LeftAsItIsIff`, `Recutting.LongMessageStands`); cutting again leaves it the same exactly when it had at most 8000 bytes, or 8029 with no character across a cut, and where no character is across a cut the count of what was left out survives only if that was 29 (`Recutting.SecondCutIsSameIff`, `Recutting.SecondCutForgetsCount`). Whether a message is kept at all is `Memory.OperatorWordsSurvive`;
- one plan leaves nothing to prune when no note on a superseded output is larger than the output, and otherwise it may take a second, but never a third (`Pruning.PruningIsFinal`, `LongPath.OnePlanIsNotEnough`, `Pruning.TwoPlansAreEnough`);
- claims exclude each other exactly while no claim may outlast the day a lapsed one is remembered, which the hub's 600 seconds do (`Claims.ExclusionIffClamped`);
- the two frame stores drop the same frames for all limits exactly when times do not go back along the log (`Frames.DropAlikeIffInOrder`);
- a lost `.seq` is rebuilt to the right number exactly when a frame is still there to show it, or none ever was (`FrameStores.LostNumberIsRebuiltIff`), and a frame whose number was not yet counted when the process died is replaced by the next unless it was the first (`FrameStores.HalfAppendIff`, `FrameStores.ReplacementIsMissed`);
- a channel a handoff opens is read again in the same pass when it comes later in the hub's list, in the next when it comes earlier, and not at all when the handoff came on it (`Replica.Hub.LaterChannelsAreReadAgain`, `Replica.Hub.EarlierChannelsWait`, `Replica.Hub.WaitingChannelsAreRead`, `Replica.Hub.OwnChannelIsNotReadAgain`, `Replica.Hub.OwnCursorStaysPast`);
- a result that passes its schema still passes once settled exactly when every enumeration it meets lists it without its padding (`Schema.SettlePreservesCheckIff`, `Schema.PaddedEnumFails`), and null is padding to one and a pass to the other exactly when no type named is null and one is unknown (`Schema.NullDisputedIff`, `Schema.UnknownTypeDropsNull`);
- a turn's answer splits the prompt into cached and uncached as its updates did exactly when no two of its requests fall on opposite sides of reading their whole prompt from a cache; the sum always agrees (`Usage.SplitAgreesIff`, `Usage.AnswerConserves`).

`dafny verify dfyconfig.toml` checks everything.

## Model

| member | source | states |
|---|---|---|
| `Protocol.ReplayRefinesLiveRun` | agent/src/journal.rs:128-244 | at every point of every run with no response half answered, crashes and recoveries included, the journal alone rebuilds exactly the live conversation, with nothing left to decide |
| `Protocol.RunRefines` | agent/src/agent.rs:255-261 | at every point of every run the journal's replay agrees with the live state, mid-response too: same calls, same answers so far, same calls recorded as started |
| `Protocol.StepRefines` | agent/src/agent.rs:434-571 | each thing the harness does keeps that agreement |
| `Protocol.CrashSafety` | agent/src/journal.rs:211-243 | after a crash at any instant, only calls of the last response with no recorded result are decided; "outcome unknown" is said of exactly those recorded as started, and "not run" of none that was handed to its tool |
| `Protocol.CrashAnswersInOrder` | agent/src/journal.rs:211-243 | each call of an interrupted response comes back with exactly one result, in call order, the recorded ones as recorded |
| `Protocol.EveryPrefixWasReached` | agent/src/journal.rs:88-102 | every prefix of a run's journal was the whole journal at some instant of that run, so what holds at every instant holds of every record prefix |
| `Protocol.OpenReadsTail` | agent/src/journal.rs:128-209 | what the replay holds of the last response is what the records after the last message, pruning or compaction say |
| `Protocol.RecoverySurvivesCrashes` | agent/src/server.rs:330-352 | a restart that dies after writing back any part of what it decided changes nothing: the next rebuilds the same messages and decides exactly the rest |
| `Journal.CloseAnswersEachCall` | agent/src/journal.rs:211-243 | taking results out of a map, one per call, answers each call from its own record when ids are distinct |
| `Journal.RestoredAsLivedIffDistinct` | agent/src/journal.rs:128-243 | whatever the journal held before, a response and the records of its calls restore to the response and the results it lived with, for every outcome, exactly when no two of its calls share an id |
| `Journal.CloseCalls` | agent/src/journal.rs:211-243 | the closing loop gives the recorded or decided result of every call and the list of those it decided |
| `Journal.Restore` | agent/src/journal.rs:128-195 | the reading loop over decodable and undecodable lines rebuilds what the decodable records stand for |
| `JournalFile.TornFile` | agent/src/journal.rs:88-140 | a process that dies at any byte of what it writes leaves exactly the records whose objects were written whole, unless it dies within a character: then the journal is not read at all |
| `JournalFile.FitsIsMost` | agent/src/journal.rs:88-102 | and those are the most records whose lines fit the bytes written |
| `JournalFile.TornAtAnInstant` | agent/src/journal.rs:88-140 | so what is read of a journal cut at any byte was the whole journal at some instant of the session |
| `JournalFile.AppendedToTorn` | agent/src/journal.rs:71-102 | what the next process appends is all read if no line was left unfinished; else its first record is lost, and with it the unfinished line's, even one that was read before |
| `JournalFile.AppendedComesBackIff` | agent/src/journal.rs:131-138 | so all that was read and all that is appended come back exactly when the file was left at the start of a line |
| `JournalFile.LostLineEnd` | agent/src/journal.rs:94-99 | a record whose line end alone is missing is read back, and lost with the next one appended |
| `JournalFile.GluedIsNone` | agent/src/journal.rs:136-138 | no object appended to the start of another, or to the whole of one, makes a line that parses |
| `JournalFile.Utf8CutIff` | agent/src/journal.rs:132-133 | a text cut at any byte is still text exactly when no character was cut |
| `Pairing.RunsStayPaired` | agent/src/agent.rs:479-571 | in every reachable conversation a message with calls is followed at once by the one answering exactly those ids in order, and no result stands alone |
| `Pairing.RestoredIsPaired` | agent/src/journal.rs:125-244 | what any instant's journal rebuilds is so paired |
| `Pairing.PairedPrune` | agent/src/compact.rs:272-282 | pruning any results keeps every call and answer where it was |
| `Pairing.PairedCompact` | agent/src/compact.rs:602-614 | cutting at any index that does not begin with results, and merging the summary into the first kept message, parts no call from its answer |
| `Rewriting.ApplyPrune` | agent/src/compact.rs:272-282 | the in-place loops replace exactly the named results' text, the first replacement named winning, and nothing else |
| `Rewriting.PruneKeepsShape` | agent/src/compact.rs:272-282 | pruning changes no call and no answered id |
| `Sizes.Threshold` | agent/src/compact.rs:90-93 | the window less its reserve, the larger of 15 hundredths of it and 16384 tokens, while that is at most half of it, and else half the window |
| `Sizes.Tokens` | agent/src/compact.rs:119-121 | the least whole number of tokens that covers the bytes at the rate |
| `Sizes.TokensMonotone` | agent/src/compact.rs:119-121 | more bytes never cost fewer tokens |
| `Sizes.LimitsScale` | agent/src/compact.rs:37-50 | for a window what is kept and what must be saved are the most within two fifths of the threshold, and what is protected within four, and none past its constant |
| `Sizes.MeasuredThenAdded` | agent/src/compact.rs:125-153 | once measured, a conversation is expected to hold the model's own count and what was added since at the rate of that count |
| `Sizes.RateIsTheRequest` | agent/src/compact.rs:142-153 | at that rate the bytes that were sent come to exactly the prompt's count |
| `Sizes.RemeasuredIsEstimate` | agent/src/compact.rs:125-163 | once rewritten it is expected to hold what its bytes come to at the rate it had |
| `Cutting.Cut` | agent/src/compact.rs:302-323 | walking back finds the smallest index of at least 1 whose suffix costs at most `keep` and does not begin with results, or the end; and says none exactly when no non-empty assistant message stands before it |
| `Cutting.EarliestCutIsUnique` | agent/src/compact.rs:302-323 | there is only one such index |
| `Pruning.FindSuperseded` | agent/src/compact.rs:175-222 | the calls found are those whose output is out of date: the path was written or edited with success since, or the same lines read |
| `Superseding.SupersededIff` | agent/src/compact.rs:175-222 | of the conversation's own blocks: a call is superseded exactly when it is a read or edit that did not fail, and later stands an edit or write of the same path that did not fail, or, for a read, a read of it with the same offset and limit that did not fail |
| `Superseding.SupersededByPath` | agent/src/compact.rs:175-222 | and what its note names is its own path, when no other call has its id |
| `Superseding.PlainPathIs` | agent/src/compact.rs:175-222 | two paths are the same place when they differ by the `./`s they start with |
| `Pruning.NewestIsKept` | agent/src/compact.rs:175-222 | the last successful read, edit or write of each path is never superseded |
| `Pruning.PlanPrune` | agent/src/compact.rs:226-269 | the backward loops with running totals plan exactly the superseded results, and the truncations when together they save enough |
| `Pruning.TruncationShortens` | agent/src/compact.rs:252-253 | a truncation note is strictly shorter than the output it replaces |
| `Pruning.PruningIsFinal` | agent/src/compact.rs:226-287 | planning again after a plan was applied, at the same limits, plans nothing, given distinct ids and superseded notes no larger than what they replace |
| `Pruning.TwoPlansAreEnough` | agent/src/compact.rs:226-287 | planning a third time plans nothing, given distinct ids, however large the notes |
| `LongPath.OnePlanIsNotEnough` | agent/src/compact.rs:226-287 | a response that searches, reads a file with a long path and changes it: the note on the read is so large that the second plan truncates the search |
| `Summary.CallsReadBackIff` | agent/src/compact.rs:362-374 | the call lines read out of a summary are the ones printed into it, wherever the other sections stand, exactly when none but the last ends in a carriage return |
| `Summary.SaidReadsBack` | agent/src/compact.rs:416-435 | the operator's messages printed into a summary are the ones a later compaction reads out of it, in order |
| `English.WordingReadsBack` | agent/src/compact.rs:325-327 | the fixed texts of the real summary meet what reading back relies on |
| `LostReturn.CarriageReturnIsLost` | agent/src/compact.rs:347-407 | the record of a response whose first call failed with `boom` and a carriage return is not read back as it was written |
| `Markers.BulletsReadBackIff` | agent/src/compact.rs:368-373 | a list comes back as it went in exactly when none of its lines holds a line end and none but the last ends in a carriage return |
| `Bytes.DecimalReadsBack` | agent/src/compact.rs:391-398 | a printed count parses to itself |
| `Remembering.RecordCalls` | agent/src/compact.rs:347-407 | the gathering loops give the record: what an earlier summary listed, a line per call with its outcome, the newest 60 and a count of the rest |
| `Remembering.FitOperator` | agent/src/compact.rs:579-586 | the dropping loop keeps the first message and the newest that fit, and says how many were left out |
| `Remembering.WriteSummary` | agent/src/compact.rs:554-597 | the message written holds the notes, the record, the operator's words and whether anything follows, in that order |
| `SafeWords.CutIsSafe` | agent/src/compact.rs:515-527 | cutting a message's middle out, once or again, makes nothing of it that could be taken for a section or a heading |
| `SafeWords.RestatedIsSafe` | agent/src/compact.rs:570-597 | nor does leaving messages out and saying how many |
| `Recutting.LeftAsItIsIff` | agent/src/compact.rs:515-527 | a message is left as it is exactly when it has at most 8000 bytes, or what stands between the two cuts reads as the note of so many bytes that would be put there |
| `Recutting.LongMessageStands` | agent/src/compact.rs:515-527 | such a longer message: 6000 bytes, the note on 29 bytes, which is 29 bytes long, and 2000 more |
| `Recutting.NoteOfItsOwnLengthIff` | agent/src/compact.rs:521-526 | no other note is as long as the count in it |
| `Recutting.CutIsStillLong` | agent/src/compact.rs:515-527 | a message over 8000 bytes is over 8000 bytes once cut, so it is cut again the next time |
| `Recutting.SecondCutIsSameIff` | agent/src/compact.rs:515-527 | cut again a message is the same exactly when it had at most 8000 bytes, or 8029 with no character across either cut |
| `Recutting.SecondCutForgetsCount` | agent/src/compact.rs:515-527 | with no character across either cut, the second note counts the first note's bytes in place of the message's, and that is the same count exactly when 29 bytes had been cut |
| `CallMemory.ShownThenMore` | agent/src/compact.rs:389-406 | a record shown, read back and continued is the record of everything |
| `CallMemory.CarriedAsSummarised` | agent/src/compact.rs:362-407 | what summaries carry of the lines summarised is those lines but for carriage returns at their ends, and the very same if none ends in one |
| `Memory.CallRecordIsExact` | agent/src/compact.rs:347-407 | over any run with any number of compactions, however long the operator's messages, the carried count plus the listed lines are all the calls summarised so far, the list is the newest 60 in order, but for carriage returns at the ends of lines, and with the calls still in the conversation they are all the calls ever made |
| `Memory.NoCallIsLost` | agent/src/compact.rs:554-614 | calls summarised plus calls still present are the calls made, over every run |
| `Memory.RecordedCallsHaveOutcomes` | agent/src/compact.rs:376-385 | wherever in any run a compaction cuts, each call before the cut has an outcome for its line |
| `OutcomeLines.RecordTellsOutcomes` | agent/src/compact.rs:347-385 | wherever in any run a compaction cuts, each call before the cut has one line, in order: its name, its arguments shortened, an arrow, and `ok` or `error: ` and the first line of the error shortened, as a result that answers it says |
| `OutcomeLines.LineTellsItsOwn` | agent/src/compact.rs:347-385 | with ids distinct that is the one result the call has |
| `Recutting.ShortenedIs` | agent/src/compact.rs:376-385 | a detail stands whole up to 160 bytes, and past that is cut at the last whole character within them, with an ellipsis |
| `Memory.EveryLineHasAnOutcome` | agent/src/compact.rs:376-385 | in a paired conversation a call that is cut off is cut off with its answer |
| `Memory.OutcomeIsItsOwn` | agent/src/compact.rs:348-383 | with ids distinct across the session each line gives its own call's outcome |
| `Memory.OperatorWordsSurvive` | agent/src/compact.rs:409-435 | over any run whose operator messages have at most 8000 bytes each, they stand word for word and in order while they total at most 16 KiB, and past that the first and the newest still stand |
| `Lives.AuthenticIsFaithful` | agent/src/compact.rs:554-614 | a session that puts in place only summaries written so, from any notes, of what was there to sum up, is one the memory theorems speak of |
| `Lives.LifeRemembers` | agent/src/compact.rs:347-435 | so at every point of such a life the record is exact and the operator's words survive |
| `Usage.AnswerConserves` | agent/src/server.rs:526-537 | a turn's cached plus uncached prompt tokens, and its answer tokens, are the sums of its updates' |
| `Usage.SplitAgreesIff` | agent/src/server.rs:526-537 | the split into cached and uncached agrees with the updates' exactly when all requests read no more from a cache than they were sent, or all no less |
| `Requests.Wait` | agent/src/agent.rs:983-993 | a failed attempt is followed by another exactly when its error may pass, nothing visible was shown, a wait is left and no more than a minute was asked for; the wait is never shorter than either asks |
| `Requests.OwedForOne` | agent/src/agent.rs:975-981 | of a request's attempts only the last can be an answer, and its usage is all that is owed for |
| `Requests.OneMoreKind` | agent/src/agent.rs:298-311 | how each way a request comes back moves the counts of overflows since a response and malformed responses in a row |
| `Outside.World.Complete` | agent/src/agent.rs:962-981 | every attempt at the upstream is on its own record, with the request it belongs to, and a cancel is on record as one |
| `Outside.World.Ask` | agent/src/agent.rs:596-596 | what the operator rules is on record, with the depth of the agent that asked |
| `Outside.World.Run` | agent/src/agent.rs:600-600 | nothing is given to a tool that the operator had not allowed, and what the tool gives back is on record |
| `Turns.Agent.constructor` | agent/src/agent.rs:211-233 | an agent begins where the steps of earlier processes left the session, with nothing counted yet |
| `Turns.Agent.Push` | agent/src/agent.rs:255-261 | a message joins the journal and the conversation as one step |
| `Turns.Agent.Announce` | agent/src/agent.rs:581-588 | a call is journaled as asked about |
| `Turns.Agent.MarkStarted` | agent/src/agent.rs:597-599 | a call is journaled as started |
| `Turns.Agent.RunTool` | agent/src/agent.rs:600-607 | a tool is only ever given a call that is on record as started and that the operator allowed, and its output is the one on record |
| `Turns.Agent.RunCall` | agent/src/agent.rs:592-615 | not cancelled before, the operator is asked, once; an allowed call is on record as started before it begins, and its output is the tool's own unless a cancel came while it ran; a denied one never begins and its output is the reason; cancelled before, none is asked about or begun |
| `Turns.Agent.FinishCall` | agent/src/agent.rs:619-655 | the result journaled is the one handed back, for the next call still open, and the counts of calls and errors go up by it |
| `Turns.Agent.CloseUnrun` | agent/src/agent.rs:1066-1087 | each call is answered in order with its text as an error, in one message after the conversation as it was, and none is left open |
| `Turns.Agent.Request` | agent/src/agent.rs:952-1012 | the upstream's record has one more request, at most five attempts, each but the last worth another, and how it went is what that record says |
| `Turns.Agent.CutFor` | agent/src/agent.rs:835-852 | no cut when the threshold was the reason and the conversation has come to fit; else the earliest cut for what is to be kept, a quarter at most unless the threshold was the reason, and none when no work was done before it |
| `Turns.Agent.PruneOld` | agent/src/agent.rs:826-834 | what is pruned is the plan, journaled before it is applied, or nothing when it is empty |
| `Turns.Agent.UseNotes` | agent/src/agent.rs:900-917 | the step taken is a compaction to the message that is written of what was there from these notes; without notes nothing changes |
| `Turns.Agent.AskSummary` | agent/src/agent.rs:861-928 | one request, not the turn's own; its answer is counted whether or not it says anything, and put in place exactly if it does |
| `Turns.Agent.Compact` | agent/src/agent.rs:817-947 | exactly the planned outputs are pruned and the cut, if there is one, replaced by the message of the notes the upstream answered with; abandoned exactly when that request was cancelled, nothing exactly when neither was done, and then nothing has changed |
| `Turns.Agent.AnswerOne` | agent/src/agent.rs:565-569 | one call is announced, asked about, run or not, and answered with exactly that output; the operator's and the tool's records have of it exactly that, and no more |
| `Turns.Agent.DecideGroup` | agent/src/agent.rs:671-691 | each spawn of a group is announced and asked about in order until one is retracted; those left to run are on record as started and allowed, the others refused with what was ruled, and all of it is on record |
| `Turns.Agent.SpawnOne` | agent/src/agent.rs:727-811 | a subagent runs for a call allowed and on record as started; the output is why it was not run, a result its schema allows, or how else it ended; what it dealt with is on record a level deeper |
| `Turns.Agent.SpawnGroup` | agent/src/agent.rs:661-723 | every spawn of a group is dealt with as it should be, with its subagent's output or what it was refused with; all the upstream answered to the subagents is counted by the parent, and they made at most 900 attempts for each |
| `Turns.Agent.RunChild` | agent/src/agent.rs:727-811 | what a subagent reports as used is what the upstream answered while it ran, in at most 900 attempts, all a level deeper; it is not run without a task, and only a result its schema allows is given back without error |
| `Interleaving.OrderKeepsUsage` | agent/src/agent.rs:693-722 | subagents run at once; in whatever order their requests reach the upstream, the usage owed for them is the same |
| `Interleaving.OrderKeepsUpdates` | agent/src/agent.rs:693-722 | and what the updates sent come to |
| `Interleaving.OrderKeepsAttempts` | agent/src/agent.rs:693-722 | and the attempts made at each depth |
| `Turns.Agent.Finish` | agent/src/agent.rs:518-539 | a subagent returns exactly when its settled result passes its schema, and otherwise its call is answered with an error |
| `Turns.Agent.AnswerCalls` | agent/src/agent.rs:512-570 | each call of a response is dealt with in order, as a tool's, a spawn or a finish; none is asked about once the turn is cancelled; each result is what came of it; the operator's and the tools' records at this depth are exactly of that; until all are answered or a subagent has returned a result its schema allows |
| `Turns.Agent.Carry` | agent/src/agent.rs:512-575 | the results so come to join the conversation as one message and the turn goes on, unless it was cancelled, as it is if any of them was, or a subagent has returned |
| `Turns.Agent.Absorb` | agent/src/agent.rs:391-439 | a response is counted once and joins the conversation before any of its calls runs |
| `Turns.Agent.Speak` | agent/src/agent.rs:434-439 | and is measured by its usage, with the bytes the request held |
| `Turns.Agent.Respond` | agent/src/agent.rs:440-575 | invented results stop the turn; an answer without calls ends it with its text; a malformed response stops it, with the first problem, if the last was malformed too, and only then; what the model is told of it; and sound calls are dealt with and answered, those and no others |
| `Turns.Agent.MakeRoom` | agent/src/agent.rs:316-333 | compacts exactly when the estimate is past the threshold and, if the last compaction could not get below it, has grown by half of what is kept since; remembers what is left exactly when it is still too much |
| `Turns.Agent.Retreat` | agent/src/agent.rs:356-377 | a second overflow ends the turn with nothing done; after a first it goes on exactly when a compaction was made, and ends as cancelled exactly when that was |
| `Turns.Agent.GiveUp` | agent/src/agent.rs:378-389 | text the operator saw before a failure is kept as the answer, and blank text is not |
| `Turns.Agent.AfterFailure` | agent/src/agent.rs:353-388 | an overflow is retreated from or ends the turn; any other failure ends it as that error, with what was shown said before |
| `Turns.Agent.Pass` | agent/src/agent.rs:334-575 | one request and all that follows: the loop's counts are those of the upstream's record so far, or the turn has ended as it must |
| `Turns.Agent.Around` | agent/src/agent.rs:312-575 | when it is due a compaction is made first, as planned, and its steps are the first of the round |
| `Turns.Agent.RunTurn` | agent/src/agent.rs:295-577 | by the upstream's own record: with a cap of m a turn makes at most m requests and, with its summaries, 15m attempts, and its subagents 900 for each spawn asked for; none is retried after visible text; nothing is asked after a second overflow with no completed response between, or after two malformed responses running; it ends as its last request has it, and otherwise only at its cap, or with a cancel on record, and every request before the last let it go on. By the operator's and the tools': each call of its sound responses was dealt with in its turn, and no other. All that was answered is counted once and in order, and no call is left open |
| `Turns.Agent.Prompt` | agent/src/server.rs:374-428 | after every prompt the journal rebuilds the conversation and every call is paired; the prompt is in the session's steps; the updates sent are those of every answer the upstream gave, its subagents' included, and an answered turn's usage is their sum; the turn ends as its requests have it, with the bounds and the dealings of a turn |
| `Turns.Agent.CompactOnRequest` | agent/src/server.rs:435-465 | the same of a compaction at the operator's wish, with what it did and that nothing changed when it says so |
| `Turns.Agent.FinishInterrupted` | agent/src/server.rs:330-352 | a restart writes back a result for each call it decided, in order, and leaves the session at rest with the messages it rebuilt |
| `Turns.Agent.Remembers` | agent/src/compact.rs:347-435 | whatever turns, compactions and restarts an agent has been through, its summaries hold the exact record of its calls and the operator's words |
| `Turns.Start` | agent/src/server.rs:212-371 | a session begun, or loaded from the lines of its journal: rebuilt, the calls left open answered in the journal, at rest, and its life going on from where it was |
| `Claims.Table.Consider` | hub/src/store.rs:517-547 | who is granted, held off or told they are stale, and what the table then remembers |
| `Claims.Table.Ask` | hub/src/routes.rs:446-479 | after any request, whatever was asked before, no two members' most recent grants of one version are both unexpired, now or later; held is said of a live grant of that version to another, stale of a version granted before, and a grant lasts as asked within the bounds |
| `Claims.Ttl` | hub/src/routes.rs:471-471 | a time-to-live within its bounds is kept, two minutes is the default, and what is outside them is brought within |
| `Claims.LeasesExclude` | hub/src/routes.rs:446-479 | over every run of requests and at every later time, no two members' most recent grants of one version of a key are both unexpired |
| `Claims.ExclusionIffClamped` | hub/src/store.rs:504-547 | that holds of every run exactly when the clamp is at most a day and a second |
| `Claims.HeldByOne` | hub/src/store.rs:517-547 | for every such clamp, over every run |
| `Claims.VersionsOnlyAdvance` | hub/src/store.rs:517-547 | an older version of a key is granted after a newer one only more than a day after the newer grant |
| `Frames.RetentionKeepsTheMost` | hub/src/store.rs:96-113 | with times in order either pruning loop keeps the longest tail in which nothing is too old and which fits |
| `Frames.DropAlikeIffInOrder` | hub/src/store.rs:216-242 | the two differently shaped loops drop the same frames at all limits exactly when times do not go back |
| `Frames.StoresAgree` | hub/src/store.rs:61-242 | over every sequence of operations with times in order the two stores assign the same numbers, drop the same frames and show the same pages |
| `Frames.RetentionKeepsRange` | hub/src/store.rs:96-113 | what is retained stays one unbroken range ending at the last number |
| `Frames.AppendedIsShown` | hub/src/store.rs:62-94 | the number an append answers with is the one its frame is shown under |
| `Frames.NumbersStay` | hub/src/store.rs:61-113 | over any run of operations, what is found under a number while it is retained is what was appended when it was given |
| `Frames.OthersUntouched` | hub/src/store.rs:61-113 | an operation on one channel changes no other |
| `FrameStores.MemoryFrames.Append` | hub/src/store.rs:62-72 | performs the log's append |
| `FrameStores.MemoryFrames.Read` | hub/src/store.rs:74-94 | shows the log's page, with the oldest number one past the latest when all was pruned |
| `FrameStores.MemoryFrames.Prune` | hub/src/store.rs:96-113 | drops by age and then by size |
| `FrameStores.Shed` | hub/src/store.rs:101-112 | the two loops drop the leading old frames and then the leading excess |
| `FrameStores.FsFrames.NextSeq` | hub/src/store.rs:159-172 | the number cached or rebuilt is the next one |
| `FrameStores.LostNumberIsRebuiltIff` | hub/src/store.rs:159-172 | without `.seq` the number is right exactly when a frame is still there, or none ever was |
| `FrameStores.FsFrames.Append` | hub/src/store.rs:185-192 | performs the log's append on files |
| `FrameStores.HalfAppendIff` | hub/src/store.rs:159-192 | a process that dies between a frame's file and its number leaves a frame that is read, and whose number is given again unless it was the channel's first |
| `FrameStores.HalfAppendIsReplaced` | hub/src/store.rs:185-192 | the next append takes its place, and the store is as if it never was |
| `FrameStores.ReplacementIsMissed` | hub/src/store.rs:194-214 | but a reader that polled between has it, and is never shown the frame in its place |
| `FrameStores.FsFrames.Read` | hub/src/store.rs:194-214 | shows the log's page from a directory scan |
| `FrameStores.FsFrames.Prune` | hub/src/store.rs:216-242 | drops by age or size, whichever, until a frame is neither |
| `FrameStores.Expire` | hub/src/store.rs:229-240 | the one loop removes exactly those files, oldest first |
| `Readers.NoSilentGap` | hub/src/routes.rs:141-164 | under every interleaving of appends, retention and polls, what is retained is the tail of what was published, a reader has an unbroken run of it since it began or was last told, the next poll says Gone exactly when a frame it wants was dropped, and a page that is not full leaves it wanting nothing |
| `Readers.ToldOnlyOfLoss` | hub/src/routes.rs:144-151 | a reader is sent back exactly when something was lost to it, and otherwise only adds to what it has |
| `Readers.Limit` | hub/src/routes.rs:141-141 | a page asks for between 1 and 1000 frames, as many as asked when that is within them and 200 by default |
| `Replica.Hub.StoreRollup` | hub/src/replica.rs:453-481 | a rollup replaces the row exactly when it is strictly newer |
| `Replica.NewestIsKept` | hub/src/replica.rs:453-481 | the row kept is the newest storable one that ever arrived |
| `Replica.OrderDoesNotMatter` | hub/src/replica.rs:450-481 | replayed, repeated or reordered, the same rollups leave the same row |
| `Replica.RowsNeverFallBack` | hub/src/replica.rs:450-481 | a row's number never decreases, and at the same number the row does not change |
| `Replica.Hub.HandOff` | hub/src/replica.rs:401-438 | keys are merged and every readable channel is sent back to the start |
| `Replica.Hub.IngestOne` | hub/src/replica.rs:329-399 | a rollup's row is the one `StoreRollup` keeps and no other row changes; a frame is counted as unreadable exactly when no key opens it; only a handoff addressed to the hub changes keys or cursors |
| `Replica.Hub.Drain` | hub/src/replica.rs:297-324 | a channel's loop ends on a fixed log even when frames send its own cursor back; it offers every retained frame not read before, once and in order, and takes each in with the keys then held: the rows and the count of frames that could not be opened are those of what was offered; other cursors move only to the start; each handoff among the frames is taken up |
| `Replica.Hub.RowIsKept` | hub/src/replica.rs:329-481 | each row is what it was or the newest storable rollup offered for it: a valid one of its own sender's, on its own channel, under a key then held |
| `Replica.Hub.OfferedIsStored` | hub/src/replica.rs:329-481 | a storable rollup so offered is in its row afterwards, or a newer one is |
| `Replica.Hub.IngestPending` | hub/src/replica.rs:285-327 | one pass is the drains of the hub's channels in order, of which the next six rows speak |
| `Replica.Hub.PassIngests` | hub/src/replica.rs:285-327 | at every point of a pass each row, and the count of frames that could not be opened, is what the frames offered in it make of what it was |
| `Replica.Hub.LaterChannelsAreReadAgain` | hub/src/replica.rs:401-438 | a handoff on any channel has every retained frame of every later channel it opens offered in the same pass, with the keys it brought in hand |
| `Replica.Hub.EarlierChannelsWait` | hub/src/replica.rs:401-438 | an earlier channel it opens is left at the start, with the keys, for the next pass |
| `Replica.Hub.WaitingChannelsAreRead` | hub/src/replica.rs:285-327 | a pass that finds a channel at the start offers every retained frame of it with the keys held when the pass began |
| `Replica.Hub.OwnChannelIsNotReadAgain` | hub/src/replica.rs:312-320 | the very channel it comes on is not read again in the pass, even if it opens it: no frame at or before the handoff is offered after it |
| `Replica.Hub.OwnCursorStaysPast` | hub/src/replica.rs:312-320 | nor by the next pass, unless a later channel brings a handoff too |
| `Replica.AdmitSelf` | hub/src/lib.rs:135-160 | the mesh comes first in the hub's channels, each other channel is there once, and those keep the order they were in |
| `Sse.Decoder.Push` | agent/src/sse.rs:21-50 | the loop over complete lines gives the frames, and leaves the state, that the bytes give one at a time |
| `Sse.ChunkingDoesNotMatter` | agent/src/sse.rs:21-50 | for every stream and every way of cutting it, the frames and the final state are those of one push of the whole |
| `Sse.EventsReadBack` | agent/src/sse.rs:24-46 | an event reads back as the text of its data lines, with a space after the colon or without, or as the end of the stream, whether lines end with a carriage return or not and whatever comments and other fields stand among them; without data it is nothing |
| `Schema.SettleIsIdempotent` | agent/src/subagent.rs:90-113 | settling twice is settling once |
| `Schema.SettleOnlyDrops` | agent/src/subagent.rs:90-113 | nothing is deleted, at any depth, but nulls the schema neither requires nor lets be null |
| `Schema.SettleLeavesNone` | agent/src/subagent.rs:90-113 | and none of those is left |
| `Schema.SettledIsFixed` | agent/src/subagent.rs:90-113 | a value is unchanged exactly when it has none |
| `Schema.PaddingSettlesAway` | agent/src/subagent.rs:84-113 | whatever padding a value carries, it settles to what the value itself settles to |
| `Schema.SettlePreservesCheckIff` | agent/src/subagent.rs:127-185 | a value that passes still passes once settled exactly when every enumeration it meets lists a value it differs from only by padding and that has none |
| `Schema.PlainEnumsAgree` | agent/src/subagent.rs:131-140 | which is so of every value when the enumerations list only values without padding, scalars among them |
| `Schema.PaddedResultPasses` | agent/src/subagent.rs:84-185 | a result that differs from one that passes only by padding, at any depth, passes once settled |
| `Schema.PaddedEnumFails` | agent/src/subagent.rs:131-140 | an enumeration that lists an object with a padded member turns that object away |
| `Schema.NullDisputedIff` | agent/src/subagent.rs:98-185 | settling takes null for padding where the check would let it pass exactly when null is not among the types named and some name is none the check knows |
| `Schema.UnknownTypeDropsNull` | agent/src/subagent.rs:98-185 | a null under a type called `any` passes, and is dropped |
| `Schema.TypeDecides` | agent/src/subagent.rs:127-185 | a value that passes is of the type named |
| `Schema.ObjectIsWhole` | agent/src/subagent.rs:127-185 | an object that passes has every member required of it, none that is not admitted, and only members that pass, and is listed if there is an enumeration |
| `Schema.WholeObjectPasses` | agent/src/subagent.rs:127-185 | and an object that has and is all that passes |

## Left out

- JournalFile.Load: how records print and parse is a parameter, of which it is asked that a record prints as one object of whole characters on a line that parses to it, and that of what begins as an object only one whole object parses; a write that fails is not modelled, and a file is read with no limit on its size.
- A hub restart loses the claims table, as it is meant to; a claim's key is not checked to be 32 bytes of hex.
- Outside.World.Run: a tool that is cancelled while it runs is taken to have given something all the same, which is not used.
- Outside.World.Complete: a response with results among its blocks, or with two calls under one id, is taken to be a cancelled attempt. The clients pass on whatever ids the upstream sends; what a repeated id costs is `Journal.RestoredAsLivedIffDistinct`.
- Turns.Agent.RunTurn: a turn without a cap may go on for ever, so it is followed for any number of requests, and "still running" is one of its endings here.
- Turns.Agent.SpawnGroup: subagents that run at once in the program run one after another here. That sums of usage, updates and attempts do not depend on the order is `Interleaving`; the order itself, and what one subagent does to the files of another, is not modelled.
- Turns.Agent.Request: waits are not waited, and what is streamed while a request runs is only the text shown by the time it failed.
- Turns.Agent.Problem and the other notices to the model: their conditions are modelled, their wording is a parameter.
- The text of the summary request sent to the model, and the answering of another member's request for changes, would only add easy members.
- Replica.Hub.IngestOne: whether a change applies is chosen freely; signatures, sealing and the membership store are parameters, and a read of the log that fails is not modelled.
- Remembering.WriteSummary: digits after a heading's start are ASCII digits here, where the program's pattern takes any Unicode digit; the conditions on what the operator writes exclude the difference.
- Memory.CallRecordIsExact: is stated of runs in which what the operator and the model say can be told from a summary's own headings, and call lines hold no line feed.
- Schema.Check: says whether a value passes, not which message it fails with.
- Sse.EventsReadBack: is stated for text that needs no UTF-8 replacement; chunking does not matter whatever the replacement does.
- Routing, authentication, pokes, the model clients, the tools, the node and the user interface.
