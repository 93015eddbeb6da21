# NAESB EDI gateway: a verified model

The gateway exchanges PGP-encrypted EDI files with trading partners over HTTP. This
project models four of its parts in Dafny and proves what they promise.

**The byte-exact MIME codec and the receipt.** Signatures cover exact bytes, so the
splitter only slices its input. `MimeSplit` holds the scanner and the parser as loops
proved equal to their specifications, and the specification of the delimiters itself:
the line-start occurrences of the marker (RFC 2046, section 5.1.1). `MimePrint` adds the
printer and the round trip in both directions: exactly which parts survive. On top of it
come encryption wrapping (`PgpMime`; RFC 1847, section 2.2, and RFC 3156, section 4), the
acknowledgement receipt with its field language and report (`Receipts`), and the signed
wrapper (RFC 1847, section 2.1, and RFC 3156, section 5). `ReceiptRoundTrip` takes a
receipt through all of them and back.

**The outbound job queue.** `Jobs` and `Messages` are the two tables as classes whose
methods are the repository's statements. `Workers` is the worker process as code over
them, with others' steps before each of its calls and each call free to raise. `Queue` is the
protocol any number of workers and enqueuers follow together, in any interleaving of locking,
committing, attempting, updating, crashing and restarting, on one clock; `QueueInvariant` and
`QueueRuns` prove what holds over its runs, and `QueueStretches` is about parts of runs: the
worker and the enqueuer (`Enqueue`) are proved to take exactly such stretches.

**The inbound pipeline.** `Inbound` is the protocol of racing requests, each a small
program whose every call may raise with its effect applied or not, beside downstream
consumers; `InboundInvariant` and `InboundRuns` prove what holds over its runs, and
`Receive` is the handler itself, call by call, proved to follow the protocol. `Gateway`
puts both sides over one table and shows that each is the environment the other was proved
against. `EndToEnd` joins a receiving gateway's row to the sending gateway's job.

**The file-drop poller.** `FileWatch`, `Pollers` and `PollerRuns`: names, listing, moving,
pickup, and the conservation of files over whole runs with restarts and crashes.

How outside things enter. Text is a sequence of octets. gpg, HTTP, the sinks, the clock,
generated keys and every failure are parameters ("oracles") chosen freely for each call.
A claim is a predicate over rows re-evaluated when they are locked, followed by an atomic
commit; a unique constraint is a check inside one atomic insert. Fields marked auxiliary
in the state types record history for the statements and influence no step.

Where code and documentation disagree, the model follows the code:

- The comment at app/settings.py:222-228 gives delays from job creation and a total of 45
  minutes. app/worker.py:100-101 adds each delay to the time of the failure, and the first
  entry is never read, so the default spreads three attempts over at least 60 minutes.
- app/worker.py:45-48 gives up a job whose partner is unknown without touching its
  message, which stays queued, as it does when the worker dies between a job's two updates;
  `QueueRuns.LostExactly` and `QueueRuns.AgreementExactly` say so of each job, in both
  directions.
- An exception other than DeliveryAttemptError ends the worker and leaves the rest of its
  batch in progress; `Workers.Worker.ProcessBatch` says which claims, and
  `QueueRuns.StrandedExactly` when a job is stranded in a run.
- A job's insert that raises after its commit leaves a job its enqueuer does not know of, and
  the poller offers the file again; `Enqueue.EnqueueOutbound` and `PollerRuns` include this.
- A retry delay of zero or less, which app/settings.py:228 does not rule out and whose first
  entry is never read, lets a batch that has just failed overtake jobs still waiting;
  `Workers.PassedOver` shows it, and `Workers.Worker.RunWorker` carries the condition.
- The bare-LF tolerance of the splitter is partial, and a part without headers never reads
  back when printed with CRLF; `MimePrint.RoundTrip` gives the exact condition.
- app/sinks/dispatcher.py keys results by sink name, so the durability test means what it
  says exactly when no durable sink shares its name with a later one
  (`Sinks.DurabilityTestIsRightIff`). app/main.py:32-58 builds at most one sink of each of
  three names, so its configurations all meet that (`Sinks.BuiltSinksAreRight`).

Verify with `dafny verify dfyconfig.toml`.

## Model

| member | source | states |
|---|---|---|
| `MimeSplit.FindDelimiters` | app/envelope/mime_split.py:65-66 | the scanning loop finds the delimiters of the specification, no more and no fewer |
| `MimeSplit.DelimitersExact` | app/envelope/mime_split.py:55-66 | for a marker free of CR and LF the delimiters found are exactly the line-start occurrences of the marker, each taking CRLF in preference to LF; they ascend and never overlap |
| `MimeSplit.SplitMimeParts` | app/envelope/mime_split.py:52-89 | the splitting loop, with its stop at the terminator and its two errors, computes the recursive specification of the split |
| `MimeSplit.BodiesAreSlices` | app/envelope/mime_split.py:66-89 | each returned body is a contiguous slice ending where the next delimiter starts, slices are disjoint and in order, and the piece the parts stop at is a terminator: nothing after the first one is returned |
| `MimeSplit.SlicesArePieces` | app/envelope/mime_split.py:65-66 | cutting at the positions the search returns equals reading the body octet by octet and starting a piece at each delimiter |
| `MimeSplit.ParseHeaders` | app/envelope/mime_split.py:92-100 | the loop's result has a header if and only if some line, blank and colon-less ones skipped, names it before its first colon, stripped and lower-cased, and its value is what follows that colon, stripped, on the last such line |
| `MimeSplit.HeadersReadOff` | app/envelope/mime_split.py:92-100 | the same read off the fold that the splitter's specification uses |
| `MimeSplit.ParamReadOff` | app/envelope/mime_split.py:20-26 | a parameter is found if and only if some piece after the first semicolon, stripped, starts with its name and `=` in any case; its value is what follows in the first such piece, stripped, without the quotes around it, if there are any |
| `MimeSplit.SniffReadOff` | app/envelope/mime_split.py:29-49 | for every body and token: the token is read off the body if and only if it is ASCII and the body, after CR and LF octets, opens with the delimiter line that shows it, however that line ends |
| `MimePrint.RoundTrip` | app/envelope/mime_split.py:52-100 | for every list of parts, printed with CRLF or bare LF: splitting gives back exactly those headers and bodies if and only if no body starts with the marker or has it at a line start, every part has a header and, for bare LF, no body contains an empty CRLF line or ends in CR; a part without headers survives only bare LF, and exactly when its body also neither starts with a newline octet nor holds an empty LF line |
| `MimePrint.LineEndingTolerance` | app/envelope/mime_split.py:62-84 | for parts with headers, under those conditions, the bare-LF rendering splits to the same parts as the CRLF rendering |
| `MimePrint.TwoParts` | app/envelope/mime_split.py:52-89 | the two-part case the wrappers share: both parts come back when both bodies are free of line-start markers, and a body that is not never comes back as it was |
| `PgpMime.UnwrapWrap` | app/envelope/pgp_mime.py:21-60 | unwrapping a wrapped payload returns it, edge newlines and blank lines included, if and only if it is non-empty and has no line-start marker |
| `PgpMime.UnwrapSpelled` | app/envelope/pgp_mime.py:21-60 | the same of every boundary, and with the boundary in quotes, as the gateway writes it, or bare, as its partners do |
| `PgpMime.UnwrapAccepts` | app/envelope/pgp_mime.py:49-60 | two parts, the first of the control type, in any case and with anything after it, the second not empty: exactly that is unwrapped, to the second body |
| `Receipts.Sanitize` | app/envelope/receipt.py:63-78 | sanitising keeps the length and every octet except that `*`, CR and LF become blanks |
| `Receipts.ReadFields` | app/envelope/receipt.py:138-155 | the field loop computes the specification of the `key=value*` language, missing fields included |
| `Receipts.FieldsReadOff` | app/envelope/receipt.py:138-148 | a field is there if and only if some chunk between stars gives it, and its value is what the last such chunk has after its first equals sign, stripped |
| `Receipts.DecodeReportPart` | app/envelope/receipt.py:118-136 | the search for the first text/plain part, with its three errors, equals its specification |
| `Receipts.FirstTextReadOff` | app/envelope/receipt.py:128-135 | the part read is the first of type text/plain, in any case and whatever follows the type, and there is none exactly when no part is of that type |
| `Receipts.SignedAccepts` | app/envelope/receipt.py:196-206 | two parts, the first with a content type, the second a signature in any case: exactly that is taken for a signed report, byte for byte |
| `ReceiptRoundTrip.FieldsReadBack` | app/envelope/receipt.py:84-155 | the four fields written by the receipt are read back, up to edge whitespace, for every receipt whose values hold no `*`, CR or LF |
| `ReceiptRoundTrip.DecodeEncode` | app/envelope/receipt.py:84-155 | decoding an encoded report gives the receipt back up to edge whitespace, whatever boundary token was drawn, with the boundary in quotes or bare |
| `ReceiptRoundTrip.ReportShowsFieldsTwice` | app/envelope/receipt.py:93-116 | the encoded report splits into an HTML and a plain part, and the HTML part shows the very text of the plain one |
| `ReceiptRoundTrip.ReportCleanInside` | app/envelope/receipt.py:97-116 | no line of any report starts with the signed wrapper's marker, so nesting needs no appeal to chance |
| `ReceiptRoundTrip.SignedReadBack` | app/envelope/receipt.py:158-206 | parsing a built signed message returns the report body octet for octet, its content type and the signature without trailing newlines, with the boundary in the header or sniffed from the body, if and only if neither has a line-start marker |
| `ReceiptRoundTrip.SignedSpelled` | app/envelope/receipt.py:158-206 | the same of every boundary, in quotes or bare in the content type |
| `ReceiptRoundTrip.SniffFirstLine` | app/envelope/mime_split.py:29-49 | the boundary read off a body that opens with its delimiter line is that boundary |
| `ReceiptRoundTrip.SignedTypeParam` | app/envelope/mime_split.py:20-26 | the boundary parameter is found in the content type the builder writes, past its other quoted parameters |
| `ReceiptRoundTrip.StatusReadBack` | app/worker.py:63-64 | the text before the first colon of any rejected status is the error code's value, the text after it the sanitised description, and no rejected status reads as ok |
| `ReceiptRoundTrip.WireReadBack` | app/envelope/receipt.py:84-206 | all layers together: what is wrapped, signed and sent is split, parsed and decoded to the same receipt |
| `ReceiptRoundTrip.RejectedEndToEnd` | app/envelope/receipt.py:62-206 | for every code and description, a rejected receipt arrives with exactly that code, the same time and ids, and never as ok |
| `ReceiptRoundTrip.OkEndToEnd` | app/envelope/receipt.py:53-206 | an ok receipt always arrives as ok, with the same time and ids |
| `Receipts.SendOnce` | app/outbound/client.py:59-132 | an attempt yields a receipt if and only if the answer parses, its signature verifies over those very bytes, the digest is allowed and the report decodes; then it is the decoded report; every error in its order |
| `ErrorCodes.CodesAreCodeText` | app/envelope/error_codes.py:18-55 | every wire value is letters, digits and hyphens only |
| `ErrorCodes.ValueInjective` | app/envelope/error_codes.py:18-55 | no two codes share a wire value: each is read back from its own |
| `Decimal.Injective` | app/envelope/receipt.py:59 | `str` of a trans-id determines it |
| `Jobs.OutboundJobRepository.Create` | app/tracking/repository.py:264-290 | whatever the record says of status, attempts and time, the job is due exactly from now on, and creating it makes no other job due |
| `Jobs.OutboundJobRepository.Select` | app/tracking/repository.py:311-321 | up to the limit of the due unlocked jobs, distinct and in order of due time, none left out being earlier than one selected |
| `Jobs.OutboundJobRepository.SelectDue` | app/tracking/repository.py:309-324 | the claim's first half: queued rows whose time has come and that no other transaction has locked, as they are in the table; one is left out only if the limit is reached by rows none of which is later |
| `Jobs.OutboundJobRepository.ClaimDueJobs` | app/tracking/repository.py:298-333 | exactly those rows become in progress with one more attempt, the claims returned carry the new attempt count, and no other row changes |
| `Jobs.OutboundJobRepository.Reschedule` | app/tracking/repository.py:353-361 | the whole new table: the job is queued again for the given time |
| `Workers.Worker.ProcessJob` | app/worker.py:35-74 | one claim, with steps of others before every call and every call free to raise, its effect applied or not, the unknown partner's included: the worker's own steps are exactly those its reply and the failures call for, in order; its job's row ends as concluded, or in progress if that update never took effect; the message shows the conclusion if its update did; later claims stay in progress |
| `Workers.Worker.HandleFailure` | app/worker.py:77-110 | the conclusion of a failed attempt is the schedule entry the attempt count selects, or an Exchange Failure, and the worker's steps are those of that conclusion |
| `Workers.Worker.ProcessBatch` | app/worker.py:145-146 | all claims survive, or the worker dies at one, which stays in progress if its job update never took effect, and all later ones stay in progress; the worker's own steps are those of the claims so far, others' in between |
| `Workers.Worker.ClaimBatch` | app/worker.py:143-144 | the rows claimed are the earliest due ones nobody else has locked, up to the batch size, in the state they were selected in; a raise before, at or after the commit has the worker's steps end in its crash |
| `Workers.Worker.RunCycle` | app/worker.py:143-147 | a cycle claims the earliest claimable rows of a state on its way, as many as there are up to the batch size, processes them in order, up to one at which the worker dies, and takes just the steps of that |
| `Workers.Worker.RunWorker` | app/worker.py:142-149 | exactly as many cycles as called for, one after another, or up to the one in which a call raises, and no steps but theirs; with nobody else there and no call raising, every job that was due and unlocked has been attempted, if one batch takes them all or there are batches enough and no delay is zero or less |
| `Workers.BackAtOnceIff` | app/worker.py:100-102 | a failed attempt leaves its job due at once if and only if its delay is zero or less |
| `Workers.PassedOver` | app/tracking/repository.py:309-324 | why that condition is there: when a whole batch is back at once, the next claim may pass over a waiting job, and must if the batch is back before that job's time |
| `Workers.UndisturbedEffect` | app/worker.py:35-110 | what those steps come to when nobody else acts: the job's row and the message's row concluded, each if and only if its update takes effect, nothing else changed, and the worker going on or dead |
| `Workers.ClaimingFollowsProtocol` | app/tracking/repository.py:309-333 | claiming a batch is the protocol's lock and commit: same table, same claims with the bumped attempt counts |
| `Enqueue.EnqueueOutbound` | app/outbound/enqueue.py:12-80 | both rows after enqueueing, for every failure, an insert that raises after its commit included; it succeeds exactly when the payload can be encrypted, no insert raises and no outbound message to the partner has the digest or the refnum; then job and message both carry sender, addressee, partner, refnum and digest, the job the encryption, and both are queued |
| `Enqueue.EnqueueFollowsProtocol` | app/outbound/enqueue.py:43-80 | whatever EnqueueOutbound's outcome, what it does to the two tables is a stretch of protocol steps: none, both inserts, or the first and the enqueuer's crash |
| `Enqueue.EnqueueInterleaved` | app/outbound/enqueue.py:51-80 | with any steps of others between the two inserts, the message waits as it was inserted and the second insert adds exactly its job |
| `QueueRuns.Invariant` | app/worker.py:142-147 | the six groups of the queue invariant hold in every reachable state, under any interleaving of lock, commit, abort, attempt, crash and restart |
| `QueueRuns.ClaimsAreExclusive` | app/tracking/repository.py:298-372 | no row is ever held twice, what is held after a commit is in progress, and every status-unguarded concluding update meets the row it claimed |
| `QueueRuns.TerminalIsFinal` | app/tracking/repository.py:335-372 | delivered, failed_nack and exchange_failure rows never change again |
| `QueueRuns.OutcomesAreRecorded` | app/tracking/repository.py:335-351 | in every reachable state a job has a receipt if and only if it was delivered, and a partner's error code if and only if it was nacked |
| `QueueRuns.AttemptsAreBounded` | app/worker.py:84-102 | attempt counts stay within the schedule, its index is in 1..n-1 whenever it is read, and an Exchange Failure by failed deliveries comes at exactly n attempts |
| `QueueRuns.RankStep` | app/tracking/repository.py:298-372 | no step raises the measure of a job, and each claim or conclusion of it lowers it |
| `QueueRuns.EventsAreBounded` | app/worker.py:77-110 | a job sees at most 2n claims and conclusions, whatever the interleaving |
| `QueueRuns.MessagesFollowJobs` | app/worker.py:45-68 | crashes included: jobs map one-to-one to outbound messages with the same ids, and a message that left queued has a job in the same terminal status |
| `QueueRuns.NothingLost` | app/worker.py:56-68 | over a whole run without a crash between the two updates and without an unknown partner, no job is separated from its message |
| `QueueRuns.LostExactly` | app/worker.py:45-68 | job by job: a job's message is left behind if and only if a step has concluded that job for an unknown partner or crashed a worker between that job's two updates |
| `QueueRuns.AgreementExactly` | app/worker.py:45-68 | job by job, in every reachable state: the message agrees with its job if and only if the job is not concluded, or neither event has hit it and no worker is between its updates |
| `QueueRuns.QuietMeansInStep` | app/worker.py:45-68 | without those, whenever no worker is between its updates every message agrees with its job |
| `QueueRuns.StrandedExactly` | app/worker.py:142-147 | a job is in progress with nobody attempting it if and only if a worker has crashed while holding it after its claim |
| `QueueRuns.RetryTiming` | app/worker.py:100-102 | attempt k+1 is claimed no earlier than the failure of attempt k plus schedule[k]; exhaustion comes no earlier than the first claim plus the sum of the later delays; with claims within d and attempts within t the span exceeds that sum by at most (n-1)(d+t) |
| `QueueRuns.DefaultScheduleWindow` | app/settings.py:222-228 | with the default schedule three attempts span 60 to 120 minutes when d+t is at most 1800 s, inside the window of standards 12.3.10 and 12.3.11 |
| `Messages.MessageTracker.FindDuplicate` | app/tracking/repository.py:53-59 | the search foretells the insert: found if and only if every row of that partner, digest and direction would be refused, whatever its other columns |
| `Messages.MessageTracker.FindRefnumReuse` | app/tracking/repository.py:61-70 | the search foretells the insert: found if and only if every row of that partner, refnum and direction would be refused, whatever its other columns |
| `Messages.MessageTracker.Create` | db/migrations/0004_unique_refnum.sql:16-18 | the insert succeeds if and only if no row of that partner and direction has the digest or the non-null refnum; keys stay unique and no other row changes |
| `Messages.MessageTracker.SetStatus` | app/tracking/repository.py:119-146 | the whole new table; identities and keys stay |
| `Messages.MessageTracker.MarkProcessed` | app/tracking/repository.py:195-220 | the accepted ones among the ids, each once, take the new status and no other row changes; the answer splits the ids into updated and, in their order, skipped, with no overlap; no eligible one is left |
| `Sinks.FanOutResult` | app/sinks/dispatcher.py:8-21 | every sink's outcome is reported under its name unless a later sink bears the same name |
| `Sinks.DurableSuccessIs` | app/sinks/dispatcher.py:24-28 | for any sinks the durability test passes exactly when none is durable or some stored delivery is the last of a name that a durable sink bears |
| `Sinks.DurabilityTestIsRightIff` | app/sinks/dispatcher.py:8-28 | the durability test is right for every delivery if and only if no durable sink shares its name with a later one |
| `Sinks.BuiltSinksAreRight` | app/main.py:32-58 | the sinks of every configuration of the gateway meet that condition |
| `Sinks.SharedNameHidesSuccess` | app/sinks/dispatcher.py:14 | two sinks that break the condition, which app/main.py never builds: a durable success goes unnoticed |
| `InboundRuns.Invariant` | app/inbound/routes.py:83-293 | the six groups of the inbound invariant hold in every reachable state, under any interleaving and any pattern of raising calls and crashes |
| `InboundRuns.ReceiptAgreesWithRow` | app/inbound/routes.py:188-293 | receipt and row agree: the row carries the sender's and the gateway's own DUNS, the digest, refnum and trans-id; a rejection's code is the row's error code with status rejected; an ok receipt means accepted or handed on, decrypted, signature matched or not required, algorithms allowed, and, where durability is required, that the durability test passed, so that a durable sink stored the message unless one shares its name with a later sink |
| `InboundRuns.AnsweredRowsAreSettled` | app/inbound/routes.py:179-187 | no answered request leaves its row in processing |
| `InboundRuns.Linearizable` | app/inbound/routes.py:141-177 | replaying all decisions one at a time as atomic insert-if-absent gives each racing request the decision it got and ends in the table's inbound keys |
| `InboundRuns.DecisionPoint` | app/inbound/routes.py:146-177 | each decision is taken by one of the request's own steps, and is duplicate if and only if the table then holds an inbound row of the partner with the same digest or non-null refnum |
| `InboundRuns.ReplyFollowsDecision` | app/inbound/routes.py:146-177 | the reply is a duplicate reply, with the code of the partner's tracking, if and only if the decision was duplicate |
| `InboundRuns.FanOutAtMostOnce` | app/inbound/routes.py:266 | no two hand-overs to the sinks in a run are of one partner's messages with the same digest or non-null refnum |
| `InboundRuns.TransIdsDiffer` | app/inbound/routes.py:83-92 | different requests never share a trans-id |
| `InboundRuns.NeverAcceptedAgain` | app/tracking/repository.py:195-220 | no step returns a message to accepted or processing |
| `InboundRuns.HandedOnce` | app/api/messages.py:87-105 | the updated sets of any two calls in a run are disjoint, and both hold inbound messages only |
| `Inbound.RefusalIsFirstFailure` | app/inbound/routes.py:108-139 | a parsed form is refused if and only if one of the five checks fails, and with a given code if and only if that is the code of the first that does |
| `Receive.Receiver.CheckEnvelope` | app/inbound/routes.py:94-139 | the handler's checks let a parsed form pass exactly when all five hold, and answer with a check's code exactly when it fails and those before it pass; a form that could not be parsed is answered with its own code |
| `Receive.VerdictIsFirstUnmet` | app/inbound/routes.py:194-276 | what gpg, policy and sinks make of a message: accepted if and only if it passes all four tests, and otherwise rejected with the code of the first it does not pass |
| `Receive.Receiver.UpdateRow` | app/inbound/routes.py:195-199 | an update that raises, applied or not, leads to the catch-all; otherwise to signing |
| `Receive.Receiver.CatchAll` | app/inbound/routes.py:286-293 | the row is rejected as EEDM999 and so is the receipt, or no receipt is given |
| `Receive.Receiver.Receive` | app/inbound/routes.py:83-293 | the handler, with arbitrary steps of others before each call and any call raising, only ever takes the protocol's steps, ends answered or gone, and its receipt agrees with its row; the reply is determined by what raises, the decision at the table and the verdict: without a raise there is one, an inserted message gets its verdict, the system error comes only of a raise; a taken key, and but for raises and others nothing else, keeps it from being inserted, and a duplicate is answered by the partner's tracking |
| `EndToEnd.ReceiptsDiffer` | app/inbound/routes.py:85-92 | the trans-ids written in the receipts of different requests differ |
| `EndToEnd.SenderAgreesWithReceiver` | app/worker.py:56-68 | the sending worker, given the bytes of an answered request's receipt, delivers its job if the answer was ok and otherwise nacks it, if and only if it accepts the signature over the very bytes the receiver signed; its row then holds the receipt's ids and time, or the code; if not, the attempt counts as failed; and when the request inserted a row, a stored code is that row's error code and the trans-id is the row's |
| `Gateway.InboundLeavesOutbound` | app/tracking/repository.py:195-220 | no inbound or downstream step touches an outbound row |
| `Gateway.QueueLeavesInbound` | app/worker.py:56-68 | no outbound step touches an inbound row, breaks a unique key or accepts a message |
| `Gateway.RunsProject` | app/worker.py:137-146 | every run of both sides together is a run of each protocol, so all theorems hold of the two at once |
| `FileWatch.Pigeonhole` | app/outbound/filewatch.py:70-77 | a directory cannot hold more numbered names than it has entries |
| `FileWatch.DestinationIsFree` | app/outbound/filewatch.py:64-77 | the name chosen is free, and is the original or the one with the least free suffix |
| `FileWatch.FreeNameUnique` | app/outbound/filewatch.py:64-77 | there is only one such name, so what is free and least determines the result |
| `FileWatch.UniqueDestination` | app/outbound/filewatch.py:64-77 | the loop terminates on every finite directory with that name |
| `FileWatch.NumberedInjective` | app/outbound/filewatch.py:74 | different suffixes give different names |
| `FileWatch.NumberedSuffix` | app/outbound/filewatch.py:64-77 | a numbered name keeps the original's suffix if and only if the original does not end in a dot (after another octet) |
| `FileWatch.StableIff` | app/outbound/filewatch.py:45-61 | stable means: not one of the gateway's own folder names, no leading dot, none of the suffixes of files being written, and unmodified for the quiet period |
| `FileWatch.ListStableFiles` | app/outbound/filewatch.py:49-61 | exactly the stable, unignored files, sorted, each once |
| `Pollers.RefnumRepository.NextRefnum` | app/tracking/repository.py:385-399 | the counter's value goes out once and differs from all earlier ones; other partners' counters stay |
| `Pollers.AttemptTracker.RecordFailure` | app/poller.py:59-63 | one more failure for that path, nothing else |
| `Pollers.FileSystem.MoveToProcessed` | app/outbound/filewatch.py:80-89 | the file leaves the inbox and appears in processed under a free name, or nothing moves |
| `Pollers.Poller.HandOver` | app/poller.py:84-98 | a payload reaches the queue exactly when the file can be read and encrypted, no call raises, and no outbound message to the partner has its digest or refnum; its job carries the partner's next refnum, or none, and the file's bytes |
| `Pollers.PickupLeaves` | app/poller.py:99-124 | a file goes to processed once handed over, to error at the attempt that reaches the limit, and otherwise stays with one more failure counted |
| `Pollers.Poller.ProcessFile` | app/poller.py:72-125 | folders, counts, jobs and the poller itself after one pickup, whatever failed: exactly what the pickup step of the runs does; the payload is handed over exactly when nothing stands against it |
| `Pollers.Poller.PollFolder` | app/poller.py:153-165 | every stable file of a folder is picked up once, in order, unless a failing rename ends the poller, and each pickup ends as its file, its failures and the tables at its turn say it must |
| `Pollers.Poller.PollOnce` | app/poller.py:128-165 | one cycle over all folders: unknown folders are left alone and warned about once per unknown streak, known ones are polled; when no call raises, every file can be encrypted and no key clashes, every stable file of a known partner has left the inbox and is in processed |
| `Pollers.PickedKeeps` | app/poller.py:128-165 | pickups take files out of the inbox only if they are picked, only add jobs, and every file handed over has a job that carries its bytes to its partner |
| `PollerRuns.FilesAreConserved` | app/poller.py:72-125 | in every reachable state each file ever dropped and not taken back is in exactly one of inbox, processed and error, once, with its bytes |
| `PollerRuns.NothingIsOverwritten` | app/outbound/filewatch.py:64-85 | no processed or error file is ever overwritten or removed |
| `PollerRuns.TriesAreBounded` | app/poller.py:55-69 | a poller process picks a file up at most max(1, max_pickup_attempts) times |
| `PollerRuns.ProcessedFilesHaveJobs` | app/poller.py:84-124 | every processed file has a job carrying an encryption of its bytes to its partner |
| `PollerRuns.QueueKeepsPayloads` | app/tracking/repository.py:298-372 | the queue never loses a job or changes what it carries |
| `PollerRuns.CycleExtendsRun` | app/poller.py:128-165 | what a poll cycle does is a stretch of a run: any run goes on with one step for each pickup and ends with folders, counts and jobs as the cycle leaves them |

## Left out

- Unicode: text is octets; whitespace, case folding and decimal digits are ASCII, and the replacement of undecodable UTF-8 when headers and fields are decoded is not modelled.
- The standard descriptions of the error codes: the model takes the description used when none is given as a parameter, any text free of `*`, CR and LF.
- Random boundary tokens: any token of letters, digits and hyphens after the code's fixed prefixes.
- Fields of receipts are limited to what the gateway writes: server id free of `*`, CR and LF, time all digits.
- MimePrint.RoundTrip: the printed header names and values are trimmed, newline-free and lower-case in the name, and no header line starts with the marker.
- ReceiptRoundTrip.RejectedEndToEnd: asks that no line of the detached signature starts with the signed wrapper's marker; gpg's armour is not modelled.
- GnuPG, key import, algorithm parsing and the policy's allow-lists: a verdict per message, as parameters.
- HTTP, TLS, authentication, the outer multipart form parser, S3, webhook and filesystem writes, configuration, logging, health and listing endpoints.
- The envelope's field validators: a form arrives malformed, refused with a code, or parsed.
- Columns that no decision reads: sinks_status, raw headers, transaction set, format, version, error descriptions and the timestamps other than next_attempt_at.
- The order in which SELECT ... ORDER BY returns jobs is in `Jobs.OutboundJobRepository.Select`; the protocol lets a worker lock any due unlocked jobs, in any number.
- Postgres itself: isolation levels, connection pools and lock time-outs.
- QueueRuns.RetryTiming: upper bounds hold under the assumption that retries are claimed within d of falling due and attempts last at most t; the code promises neither.
- Workers: the retry time is read off the clock at the instant of the update; in the code a moment passes between the two.
- Pollers.Poller.PollOnce: folders and tables are the poller's alone during a cycle; in the runs of `PollerRuns` drops, withdrawals and the queue's steps may come between any two pickups, but a file withdrawn after its folder was listed and before its pickup is not represented.
- Reclaiming jobs stranded in progress: the code does not do it.
- PollerRuns.ProcessedFilesHaveJobs: one direction only; a crash between hand-over and rename, or a job's insert that raises after its commit, leaves a file in the inbox that already has a job and will be given another.
- Inboxes hold regular files only in the model; sub-directories and other entries, which listing skips, are not represented, and nobody but the poller writes to processed and error.
- A file's bytes do not change between its drop and its pickup; the quiet period is the code's only guard for that.
