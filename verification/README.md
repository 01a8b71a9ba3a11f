# lite-hmrc in Dafny

lite-hmrc carries licence and usage files between three licensing systems (LITE, SPIRE and ICMS) and HMRC's CHIEF. This project models the three parts of it that decide whether a licence reaches CHIEF once, in order and unchanged, and proves what they promise.

**The line files.** `Text` has Python's `split`, `join`, `in`, `count` and `strip` on `seq<char>`, with the round trips between them. `ChiefProtocol` prints and numbers records (HMRC's DES235 syntax), `LicenceFiles` generates LITE's and ICMS's licence blocks, `EdifactValidator` is the DES236 check and `EdifactRules` the rules it checks, and `LicenceFileFacts`, `LicenceFileValidity` and `LicenceFileOutcome` prove that generator and validator agree. `LicenceReading` reads a file column by column and says, from the payloads' own fields, what it should say; `LicenceReadingFacts` proves that it does, and `LicenceRegister` what that means to a register of licences. `LicenceReply` is the reply parser, with the printer of fake replies and the ICMS callback, and `IcmsAnswers` goes from a licence file to the callback that answers it.

**Usage files.** `UsageSplit` is the splitting loop, for every text; `UsageFiles` and `UsagePartition` say what it does to a well-formed file; `UsageRequest`, `UsagePayload` and `UsageReply` with `UsageReplyFacts` and `UsageAnswers` are the three things made of it: the file SPIRE is sent, the payload LITE is sent, and the reply HMRC is sent.

**The mail workflow.** `MailTables` has the tables, append-only in creation order, and the queued sendings as an explicit list. `MailWorkflow` has every step as a method on the tables, proved against a function; `PollOutcome` says which mail a poll sends on and `ReplyStorage` which mail a reply is stored on; `WorkflowRuns`, `WorkflowFindings`, `QueueDrain` and `PollOutcome` are about all runs of the SPIRE and LITE workflow, `IcmsLoop` about all runs of the ICMS loop, `SendLock` about all interleavings of the lock, and `RunNumbers` about a whole series of run numbers.

Code that updates something in place is a class or a loop here too: record objects that the numbering writes into, the reply processor, the mapping tables, the mail tables, the loops over lines. Each such method is proved equal to a function, and the claims are lemmas about those functions. An exception is `None`, `Raised`, or a `false` result, and what was written before it stays written, as in the code.

The guard named in `WorkflowRuns` is an assumption on the schedule: a poll or a LITE send starts only when no finalising task is outstanding. Claims that need it say `Guarded`; the others hold for every schedule. `WorkflowFindings.GuardIsNeeded` is a run without it that breaks the claim.

Where the code does something other than its comments suggest, the model follows the code:

- A usage reply is never stored: its mail would have to be `reply_pending`, and a usage mail never is.
- The "retry" of a rejected licence file is never taken, because a mail that has a reply is no longer of type `licence_data`.
- A licence reply is stored on the mail in flight whatever run number it gives, unless a mail of that number has been answered.
- Sending a usage file on to SPIRE does not recompute the trailer's transaction count.
- Without a reply from SPIRE, the merged reply has two lines numbered 1.
- The merged reply's file error count is half the true one.
- The validator computes the errors of `restrictions` records and throws them away.
- An open individual trade control licence has no CHIEF type, so a file with one is always refused.
- A licence that has been updated cannot be updated again, because the latest payload with its reference is an update.
- LITE's own run numbers do not wrap at 99999, and once past it they never come back.
- An ICMS sending that fails for good stops the loop.
- The lock's owner id is that of a thread. When one thread calls twice and another once, that thread's second acquisition and the other's can happen at the same moment.
- The licence ids of a usage file are also read from the lines after its trailer, where the split does not look.
- A licence email that is taken in twice can get a second LicenceData row, and then every poll that picks its mail raises.
- ICMS replies are stored by the number in their subject and answered by the number in their file header; nothing compares the two, so a reply can be answered from another file's payloads.

## Model

| member | source | states |
|---|---|---|
| UsageSplit.UsageTables.SplitEdiDataById | mail/libraries/usage_data_decomposition.py:8-62 | The loop, for every text: its two lists of blocks and the mapping rows it leaves, also when it raises part way, are those of `SplitFile` |
| UsageSplit.RetryAddsNoRow | mail/libraries/usage_data_decomposition.py:26-46 | For every text: splitting again for the same usage data, even after a failure part way, adds no TransactionMapping row and gives the same result |
| UsageSplit.SplitLosesNothing | mail/libraries/usage_data_decomposition.py:8-62 | For every text whose split reaches a trailer: each line occurs on the two sides together exactly as often as in the file up to there |
| UsageFiles.BuildEdifactFileFromDataBlocks | mail/libraries/usage_data_decomposition.py:65-74 | The built text is the blocks' lines numbered 1, 2, 3, ... across blocks, joined without a final line end |
| UsageFiles.SubstringTestsAgree | mail/libraries/usage_data_decomposition.py:20-59 | On every line of a well-formed file the loop's substring tests hold exactly for the record types they stand for |
| UsagePartition.SplitIsPartition | mail/libraries/usage_data_decomposition.py:8-62 | The split of a well-formed file is the stable partition of its blocks by owner, SPIRE's side framed by header and trailer, and the rows written are exactly the stated ones |
| UsagePartition.RebuildThenResplit | mail/libraries/usage_data_decomposition.py:65-74 | Rebuilding SPIRE's side and splitting it again gives the same SPIRE blocks and no LITE block |
| UsagePartition.CutFileIsSplitAlike | mail/libraries/usage_data_decomposition.py:8-62 | A usage file that breaks off before its trailer is split in the same way, without a trailer on SPIRE's side, and maps the same rows |
| UsagePartition.EveryLiteTransactionMapped | mail/libraries/usage_data_decomposition.py:26-46 | After one run every LITE transaction has a row, blocks without a goods line included, and every LITE goods line its own |
| UsagePartition.RowsWrittenExactly | mail/libraries/usage_data_decomposition.py:26-46 | A row is in the table after a run exactly when it was before, or is that of a LITE goods line, or of a LITE block without goods lines whose transaction had no row and is no earlier LITE block's |
| UsageRequest.GetLicenceIds | mail/libraries/helpers.py:205-213 | The loop's list is `IdsOf` of the file's lines, an `IndexError` included |
| UsageRequest.OwnerFlags | mail/serializers.py:91-106 | The flags say whether some licence of the list is LITE's and whether some is not, and stay null on an empty list |
| UsageRequest.IdsOfFile | mail/libraries/helpers.py:205-213 | The ids found in a well-formed file are its blocks' licences, in file order, and then those of whatever follows its trailer; a final line end adds none |
| UsageRequest.OwnersAgree | mail/serializers.py:91-106 | `has_lite_data` (null as false) says whether the split yields a LITE block, and `has_spire_data` whether SPIRE's side is longer than header and trailer, exactly when each licence named after the trailer has an owner with a block in the file; so for every file that ends with its trailer line |
| UsageRequest.SpireIsSentItsOwnBlocks | mail/libraries/builders.py:44-55 | SPIRE is sent nothing when it owns no licence, else the header with the new run number, its own blocks and the unchanged trailer, renumbered |
| UsageRequest.SentTrailerIsTrueExactlyWhenAllIsSpires | mail/libraries/builders.py:50-55 | Of a file with a true trailer count, the part sent to SPIRE has a true one exactly when LITE owns no block |
| UsagePayload.BuildJsonPayloadFromDataBlocks | mail/libraries/usage_data_decomposition.py:77-126 | The loop's "licences" list is that of `Payload`, an `IndexError` included |
| UsagePayload.PayloadListsOpenLiteBlocks | mail/libraries/usage_data_decomposition.py:77-126 | Split and payload composed: exactly LITE's blocks with status `O`, in file order, with each goods line of the block once |
| UsageReply.UsageMail.CombineLiteAndSpireUsageResponses | mail/libraries/combine_usage_replies.py:8-109 | The text returned is `Merged` of the two replies, `None` for an exception, and the mail's response filename is set exactly when SPIRE sent no reply |
| UsageReply.RejectionRecords | mail/libraries/combine_usage_replies.py:77-99 | The `end` record of a LITE rejection carries the number of its records |
| UsageReplyFacts.MergedReply | mail/libraries/combine_usage_replies.py:8-109 | When SPIRE replied: its records, LITE's and a trailer, numbered consecutively, the trailer counting accepted and rejected records truly when rejections are balanced |
| UsageReplyFacts.NumberedExactlyWhenSpireReplied | mail/libraries/combine_usage_replies.py:17-30 | The merged reply is numbered 1, 2, 3, ... exactly when SPIRE replied |
| UsageReplyFacts.TrailerIsTrueExactlyWithoutFileErrors | mail/libraries/combine_usage_replies.py:102-107 | All three counts on the trailer are true exactly when there is no file error |
| UsageReplyFacts.OneFileErrorIsReportedAsNone | mail/libraries/combine_usage_replies.py:106-106 | A reply with one file error gets a trailer with none |
| UsageReplyFacts.LiteRecordsOk | mail/libraries/combine_usage_replies.py:32-100 | LITE's records are free of the counted words whenever the mapped transactions and LITE's error texts are |
| UsageReplyFacts.ErrorNamesOwnLine | mail/libraries/combine_usage_replies.py:80-96 | The position an error text names is that of the transaction's own goods line in the usage file, whatever follows the file's trailer without naming the transaction |
| UsageAnswers.MergedExactlyWhenKnown | mail/libraries/combine_usage_replies.py:32-76 | There is a merged reply exactly when every licence LITE accepted, and every one it rejected with a good, is found in the mapping tables; each rejected good's transaction standing in the file |
| UsageAnswers.AcceptedLineNamesItsTransaction | mail/libraries/combine_usage_replies.py:34-65 | The line of each accepted licence in the merged text: its number, `accepted`, and the transaction the tables give for the licence and its first good |
| UsageAnswers.RejectionNamesItsLine | mail/libraries/combine_usage_replies.py:67-100 | The three lines of each rejection in the merged text: its transaction, LITE's error text followed by the position of that good's own line in the usage file, and the closing count |
| UsageAnswers.AcceptedUnderItsOwnBlock | mail/libraries/combine_usage_replies.py:39-64 | With transactions looked up in the rows of the file's own split, an accepted licence is answered under the transaction of a LITE block of that licence with the good's line, or without goods if LITE names none |
| UsageAnswers.RejectedUnderItsOwnBlock | mail/libraries/combine_usage_replies.py:69-78 | The same of a rejected licence and its rejected good |
| UsageAnswers.OwnHeaderIsWritten | mail/libraries/combine_usage_replies.py:25-30 | Without a reply from SPIRE the merged text starts with a header of its own |
| ChiefProtocol.ResolveLineNumbers | mail/libraries/chiefprotocol.py:21-43 | The objects written in place hold the records `Resolve` gives, with their positions as line numbers; a missing start is the `KeyError` |
| ChiefProtocol.PrintLines | mail/libraries/chiefprotocol.py:46-57 | The printed text is `FormatLines` of the records |
| ChiefProtocol.EndsCountFromTheirStarts | mail/libraries/chiefprotocol.py:21-43 | For every list of records: numbering raises exactly when an `end` has no record of its start type before it, and else changes only the counts of `end` records, each to the number of records from the latest of its start type to itself |
| ChiefProtocol.LineSplitsBack | mail/libraries/chiefprotocol.py:46-49 | A printed record splits back into its own fields, as many as DES236 gives its type |
| ChiefProtocol.ResolveBlock | mail/libraries/chiefprotocol.py:35-39 | Whatever came before it, a block's `end` record gets the block's own size |
| ChiefProtocol.NumberedFile | mail/libraries/chiefprotocol.py:21-64 | A numbered file: each `end` has its block's size, header, sizes and trailer add up to the number of lines, the trailer counts the blocks |
| LicenceFiles.GoodIdMappings.GenerateGoods | mail/libraries/lite_to_edifact_converter.py:152-178 | The goods loop yields one record a good, numbered from 1, and writes one GoodIdMapping row a good, also for the good on which it raises |
| LicenceFiles.GoodIdMappings.GenerateDetails | mail/libraries/lite_to_edifact_converter.py:100-186 | The part all actions but a cancel share yields the records of `Details` and writes their goods' rows |
| LicenceFiles.GoodIdMappings.GenerateLines | mail/libraries/lite_to_edifact_converter.py:52-188 | The branches and the shared rest yield the blocks of `GenerateLinesForLicence`, for an update the cancel block of the old reference and then exactly what an insert of the new payload yields |
| LicenceFiles.GeneratedBlocks | mail/libraries/lite_to_edifact_converter.py:52-188 | What is emitted for a payload is one block, for an update two, each opened by a licence record and closed by its `end` |
| LicenceFiles.GenerateIcmsLines | mail/libraries/lite_to_edifact_converter.py:309-364 | The branches for an ICMS payload yield the block of `GenerateLinesForIcmsLicence`, or raise |
| LicenceFiles.GenerateIcmsGoods | mail/libraries/lite_to_edifact_converter.py:383-420 | The loops over its goods yield `GetGoods` |
| LicenceFiles.GeneratedIcmsBlock | mail/libraries/lite_to_edifact_converter.py:309-364 | An ICMS payload makes one such block |
| LicenceFiles.BlocksFromShape | mail/libraries/lite_to_edifact_converter.py:226-232 | The number of blocks is the number of payloads plus the number of updates |
| LicenceFileFacts.LicencesToEdifact | mail/libraries/lite_to_edifact_converter.py:191-244 | The loop over payloads, the numbering, the printing and the check together give the outcome `Edifact`: the text, the validation errors, or another exception; and the mapping rows of every payload up to the first that raises |
| LicenceFileFacts.LineValidExactly | mail/libraries/edifact_validator.py:30-283 | The validator finds nothing wrong with a printed record exactly when the record meets the rule for its type |
| LicenceFileFacts.FileValidExactly | mail/libraries/edifact_validator.py:286-325 | The validator returns no error on printed records exactly when each meets its rule under the data identifier in force |
| LicenceFileFacts.LiteClean | mail/libraries/lite_to_edifact_converter.py:52-188 | Payload texts without separators give records without separators, references, dates and codes included |
| EdifactValidator.ValidateFileHeader | mail/libraries/edifact_validator.py:30-54 | The errors appended for a header line are `HeaderErrors`, in order, or an exception |
| EdifactValidator.ValidateLicenceTransactionHeader | mail/libraries/edifact_validator.py:57-81 | The same of a licence line and `LicenceErrors` |
| EdifactValidator.ValidatePermittedTrader | mail/libraries/edifact_validator.py:104-142 | The same of a trader line and `TraderErrors` |
| EdifactValidator.ValidateCountry | mail/libraries/edifact_validator.py:145-163 | The same of a country line and `CountryErrors` |
| EdifactValidator.ValidateForeignTrader | mail/libraries/edifact_validator.py:166-201 | The same of a foreign trader line and `ForeignTraderErrors` |
| EdifactValidator.ValidateRestrictions | mail/libraries/edifact_validator.py:204-216 | The same of a restrictions line and `RestrictionsErrors` |
| EdifactValidator.ValidateLicenceProductLine | mail/libraries/edifact_validator.py:219-253 | The same of a goods line and `ProductErrors` |
| EdifactValidator.ValidateEndLine | mail/libraries/edifact_validator.py:256-268 | The same of an end line and `EndErrors` |
| EdifactValidator.ValidateFileTrailer | mail/libraries/edifact_validator.py:271-283 | The same of a trailer line and `TrailerErrors` |
| EdifactValidator.ValidateLine | mail/libraries/edifact_validator.py:298-321 | The branch on the record type calls the validator of that type and keeps its errors, except that of `restrictions` |
| EdifactValidator.RestrictionsErrorsAreLost | mail/libraries/edifact_validator.py:312-313 | A restrictions line, with errors of its own or not, changes nothing about the errors of any file it stands in |
| EdifactValidator.ValidateEdifactFile | mail/libraries/edifact_validator.py:286-325 | The list returned is the errors of the non-empty lines, in order, or an exception |
| EdifactRules.ReportsExactly | mail/libraries/edifact_validator.py:30-283 | For any line: the validator raises exactly when a column it needs cannot be read, and otherwise reports each problem exactly when the line breaks that rule |
| EdifactRules.TextPassesExactly | mail/libraries/edifact_validator.py:286-325 | For every text: it raises exactly when some line cannot be read, and otherwise finds nothing wrong exactly when each line breaks no rule under the data identifier of the last header before it |
| LicenceFileValidity.LitePasses | mail/libraries/lite_to_edifact_converter.py:52-188 | A LITE payload's records pass the validator exactly when the payload meets the stated rules |
| LicenceFileValidity.IcmsPasses | mail/libraries/lite_to_edifact_converter.py:309-420 | An ICMS payload's records pass exactly when the payload meets the stated rules |
| LicenceFileValidity.FileTextIs | mail/libraries/chiefprotocol.py:46-57 | The generated text splits into its numbered lines, and every record prints without ambiguity |
| LicenceFileValidity.WrittenExactlyWhenPayloadsOk | mail/libraries/lite_to_edifact_converter.py:235-244 | Generator and validator agree: for separator-free texts, a file is written exactly when every payload meets the rules on lengths, dates, types and postcode |
| LicenceFileOutcome.FileOutcomeExactly | mail/libraries/lite_to_edifact_converter.py:235-244 | A file that is not written is refused with its errors, except that the validation raises exactly when a payload that is not a cancel has dates that are not both numbers |
| LicenceFileValidity.WrittenFileContents | mail/libraries/lite_to_edifact_converter.py:226-236 | A written file's lines are numbered 1 to n, with every block's size on its `end`, n being header, sizes and trailer, and one transaction a payload and two an update |
| LicenceReadingFacts.RecordsSay | mail/libraries/lite_to_edifact_converter.py:52-420 | For every list of LITE or ICMS payloads on which generation succeeds: the emitted records, read column by column, are the header with time stamp and run number, for each payload in order its transactions (reference, action, licence, type, use, dates, trader, destinations, end user, provisos, and per good its line, description or commodity, unit and quantity) as its own fields give them, nothing else, and a trailer with their number |
| LicenceReadingFacts.FileSays | mail/libraries/lite_to_edifact_converter.py:191-236 | The same of the printed text, for payload texts without field and line separators |
| LicenceReadingFacts.WrittenFileSays | mail/libraries/lite_to_edifact_converter.py:191-244 | The same of the text of every file that passes its validation and is returned |
| LicenceReadingFacts.TransactionReferenceIs | mail/libraries/lite_to_edifact_converter.py:247-255 | A reference that starts with GB has a transaction exactly when it has a slash, and it is the parts after the first slash put together; any other exactly when it has a digit, and it is the text from the first digit on without hyphens |
| LicenceReadingFacts.GoodsAreMappedToTheirLines | mail/libraries/lite_to_edifact_converter.py:152-178 | A generated licence maps each good to exactly the line number the good has in the file |
| LicenceReadingFacts.GoodRowsAre | mail/libraries/lite_to_edifact_converter.py:152-166 | Exactly which rows the goods loop writes: one for each good up to and including the first whose unit has no code |
| LicenceReadingFacts.FileRowsAre | mail/libraries/lite_to_edifact_converter.py:225-226 | Exactly which rows a file writes: those of each payload that all before it let be reached |
| LicenceRegister.RecordsMeanTheirActions | mail/libraries/lite_to_edifact_converter.py:52-188 | For every payload list on which generation succeeds, taking in the transactions read from the emitted records gives any licence register what applying the actions directly gives |
| LicenceRegister.FileMeansItsActions | mail/libraries/lite_to_edifact_converter.py:191-236 | The same of the transactions read from the printed text, for payload texts without field and line separators |
| LicenceRegister.WrittenFileMeansItsActions | mail/libraries/lite_to_edifact_converter.py:191-244 | The same of the text of every file that passes its validation and is returned, for payload texts without separators |
| LicenceRegister.UpdateWorksExactlyAfterInsert | mail/libraries/lite_to_edifact_converter.py:42-88 | An update is generated exactly when the latest payload of the old reference is an insert with dates, that reference has a transaction, and the new payload could be inserted |
| LicenceReply.LicenceReplyProcessor.LoadLicenceReplyData | mail/chief/licence_reply/processor.py:80-84 | The fields after loading are those of `Process`, or it raised |
| LicenceReply.LicenceReplyProcessor.ProcessLine | mail/chief/licence_reply/processor.py:86-130 | One line's effect on every field, the rejected transaction being read included |
| LicenceReply.LicenceReplyProcessor.FileValid | mail/chief/licence_reply/processor.py:132-141 | True exactly for no file error and both counts right; the trailer is not read when there are file errors |
| LicenceReply.PrintThenParse | mail/management/commands/dev_fake_licence_reply.py:121-129 | Printing records and parsing the text gives the same records, in order |
| LicenceReply.PrintThenProcess | mail/chief/licence_reply/processor.py:80-130 | Printing a structured reply and processing it gives every answer, on its side, in order, with its own errors |
| LicenceReply.ValidReplyDropsNothing | mail/chief/licence_reply/processor.py:99-141 | For every accepted text: completed rejections never outnumber `rejected` headers; with true trailer counts the file is valid exactly when it has no file error and every header was closed, and then all are recorded in order |
| LicenceReply.LineMeans | mail/chief/licence_reply/types.py:57-179 | Which column of its line each attribute of a record is |
| LicenceReply.ValidExactlyWhenCountsAreTrue | mail/chief/licence_reply/processor.py:132-141 | For every text the processor accepts: valid exactly when it has no `fileError` line and the counts on its last trailer line are the numbers of `accepted` lines and of closed rejections; the check raises exactly when it has no such line and a count is missing or no number |
| LicenceReply.LosingAnAcceptedLineIsNoticed | mail/chief/licence_reply/processor.py:138-141 | A printed reply with true counts is valid, and is refused when one of its `accepted` lines is lost |
| LicenceReply.CallbackExactlyWhenKnown | mail/icms/tasks.py:132-147 | The callback can be built from a file's payloads exactly when the reply has a header and every reference in it is a payload's |
| LicenceReply.LastRowAnswers | mail/icms/tasks.py:132-133 | Of several payloads with one reference the last one's id is answered |
| LicenceReply.CallbackHoldsEveryPayload | mail/icms/tasks.py:127-147 | With distinct references, each answered once, the callback holds every payload id exactly once, on the side its answer is on, a rejection with its errors |
| LicenceReply.ReplyReachesIcms | mail/icms/tasks.py:85-147 | From printed reply to callback: a reply that answers every transaction once with true counts is valid, and its callback holds every payload id once, on the side of its answer |
| IcmsAnswers.FileNamesItsPayloads | mail/libraries/lite_to_edifact_converter.py:325-334 | The transactions in the text of a written ICMS file are its payloads' references, in order |
| IcmsAnswers.AnswerableExactlyWhenEchoed | mail/icms/tasks.py:127-147 | The callback for any reply can be built from the file's rows exactly when the reply has a header and names only transactions that stand in the file's text |
| IcmsAnswers.EveryPayloadIsAnswered | mail/icms/tasks.py:85-147 | From file text to callback: if each transaction in it is answered once, with true counts, the reply is valid and the callback holds every payload's id, on the side of its answer |
| RunNumbers.HmrcNumberCountsChanges | mail/libraries/helpers.py:176-184 | For every series of source numbers below 100000, the last file's HMRC number is the first plus the number of changes of the source number, modulo 100000 |
| RunNumbers.SpireNumberCountsChanges | mail/libraries/helpers.py:187-195 | The same of the usage files' SPIRE numbers and HMRC's numbers |
| RunNumbers.RepeatKeepsNumberExactlyWhenSmall | mail/libraries/helpers.py:179-183 | A source number that repeats keeps its HMRC number exactly when it is below 100000 |
| SendLock.LockHoldsExactlyWhen | mail/libraries/data_processors.py:144-159 | For a mail's row and the ids of the calls started: in every interleaving any two acquisitions are more than the lock interval apart, if and only if the row's owner is not among the ids or there is one call, and no id occurs twice or there are at most two calls |
| SendLock.AcquisitionsAreApart | mail/libraries/data_processors.py:144-159 | The same for one interleaving; ids that are never reused are the usual case of its condition |
| SendLock.ReusedIdBreaksTheLock | mail/libraries/data_processors.py:155-155 | A run in which a thread calls twice, and its second acquisition and another thread's happen at the same moment |
| SendLock.MailRow.LockDbForSendingTransaction | mail/libraries/data_processors.py:144-159 | One call alone acquires exactly when nobody holds the lock or it has run out, writes owner and time only then, and is one of the interleaved runs |
| MailWorkflow.Workflow.GetOrCreateLicenceRow | mail/serializers.py:26-28 | An identical row is kept, any other is added |
| MailWorkflow.Workflow.CreateLicenceData | mail/serializers.py:45-65 | The tables after a licence email: a mail only if none waits with the same text, and its row |
| MailWorkflow.Workflow.CreateUsageData | mail/serializers.py:128-141 | The tables after a usage email: a mail and its row, or nothing if the text is known |
| MailWorkflow.Workflow.SaveReply | mail/serializers.py:68-81 | A reply takes its mail to the reply's type, `reply_received`, and stores the text |
| MailWorkflow.Workflow.SerializeEmailMessage | mail/libraries/data_processors.py:24-126 | The tables after any email, and whether it raised |
| MailWorkflow.Workflow.UpdateMail | mail/libraries/routing_controller.py:146-170 | The status and sent fields change as `Updated` says, on that mail only |
| MailWorkflow.Workflow.CollectAndSend | mail/libraries/routing_controller.py:179-207 | A mail is queued, recorded at once, left alone or fails, whether or not the lock was obtained |
| MailWorkflow.Workflow.CheckAndRouteEmails | mail/libraries/routing_controller.py:84-143 | A whole poll: emails in order, then one mail chosen and sent on |
| MailWorkflow.Workflow.FinaliseSending | mail/celery_tasks.py:176-202 | The task updates its mail and marks its still unprocessed payloads processed |
| MailWorkflow.Workflow.SendLicenceDetailsToHmrc | mail/celery_tasks.py:223-269 | A file of all waiting payloads with the next number is made and queued exactly when every mail is `reply_sent`, something waits and it is valid |
| MailWorkflow.Workflow.SaveResponse | mail/celery_tasks.py:61-71 | LITE's answer is recorded, and a mail without SPIRE data becomes `reply_received` |
| WorkflowRuns.GuardedRunsAreSafe | mail/libraries/mailbox_service.py:196-204 | In every guarded run at most one licence mail is in flight, so the single-row lookup never meets two; the mails are staged in creation order; and `reply_sent` means sent, answered and passed on |
| WorkflowRuns.SentFilesAreAPrefix | mail/libraries/helpers.py:225-290 | In every guarded run an earlier licence file than one that has left has been answered |
| WorkflowRuns.EmailsAreTakenIn | mail/libraries/data_processors.py:24-58 | In every guarded run taking emails in never raises |
| WorkflowRuns.UsageRepliesAreDropped | mail/libraries/data_processors.py:117-126 | In every run a usage reply changes nothing |
| WorkflowRuns.RetryIsNeverTaken | mail/serializers.py:49-55 | In every run at most one waiting mail has a file's text, and it is not a rejected one |
| WorkflowFindings.GuardIsNeeded | mail/libraries/routing_controller.py:162-188 | An unguarded run after which a licence mail is `reply_sent` and no reply was ever stored |
| WorkflowFindings.ReplyIsStoredOnTheMailInFlight | mail/libraries/data_processors.py:104-116 | In every guarded run a licence reply is stored on the one mail in flight, unless the latest mail of its number has been answered |
| WorkflowFindings.RunNumbersFollow | mail/libraries/helpers.py:176-184 | In every run each LicenceData row's number follows that of the row that was last: equal when the source number repeats, else one more, with SPIRE's wrap after 99999 |
| WorkflowFindings.NumbersPastTheLimitNeverComeBack | mail/libraries/builders.py:207-208 | In every run, once the last number is 100000 or more, no later one is below |
| WorkflowFindings.UsageEmailIsStored | mail/serializers.py:84-141 | A new usage email becomes a pending mail and a row with HMRC's number as given and SPIRE's following the last row's; a known one changes nothing |
| WorkflowFindings.LicenceEmailIsStored | mail/serializers.py:19-65 | A new licence email becomes a pending mail and a row with the email's source and number, its HMRC number following the last row's |
| WorkflowFindings.KnownLicenceEmail | mail/serializers.py:45-65 | For all tables, an email whose text is known: stored anew if its mail has a reply that says "rejected", else only its row is added, and with a second mail of that text it raises |
| ReplyStorage.LicenceReplyIsStored | mail/libraries/data_processors.py:104-116 | For all tables: a licence reply is dropped when the latest file of its number has been answered or none is in flight, else stored on the one in flight, and it raises when there are two |
| ReplyStorage.UsageReplyIsStored | mail/libraries/data_processors.py:117-126 | The same of a usage reply |
| WorkflowFindings.UsageNumbersFollow | mail/libraries/helpers.py:187-195 | In every run the number SPIRE is given with a usage file follows that of the last row: equal when HMRC's number repeats, else one more, with 0 after 99999 |
| WorkflowFindings.RowsSayWhoseFileItIs | mail/libraries/builders.py:206-226 | In every run the row of a file built from payloads is LITE's, with its number and payloads and no source number, and an email's row has a source number and no payloads |
| PollOutcome.PollPassesOnTheOldestReply | mail/libraries/helpers.py:225-234 | For all tables: a poll that takes emails in passes on the oldest reply received: recorded if it answers LITE, else queued; nothing happens exactly while it waits for LITE, and it raises exactly when there is no answer to build |
| PollOutcome.PollWaitsWhileInFlight | mail/libraries/helpers.py:236-243 | For all tables: with no reply received and a mail in flight, such a poll sends nothing |
| PollOutcome.PollSendsTheOldestPending | mail/libraries/helpers.py:245-250 | For all tables: with neither, it sends the oldest pending mail, or raises when that has not its one row |
| PollOutcome.QuietPollSendsTheOldestPending | mail/libraries/helpers.py:253-290 | For all tables: a poll without emails sends the oldest pending mail, or raises when licence files are in each other's way or the mail has not its one row |
| PollOutcome.ReplyIsPassedOnExactlyWhen | mail/libraries/routing_controller.py:120-207 | In every guarded run, a poll and its delivery leave a licence mail with a received reply `reply_sent` exactly when no older reply waits and the mail has one row |
| PollOutcome.EveryReplyIsPassedOn | mail/libraries/routing_controller.py:120-207 | In every guarded run without sendings that fail for good, answers from LITE or a recurring licence text: whenever no finalising task is outstanding, every licence reply ever stored has been passed on |
| PollOutcome.LiteAnswerIsPassedOn | mail/celery_tasks.py:61-71 | LITE's answer changes no mail when SPIRE owns a licence in the file; else the mail has its reply, and the next poll that takes emails in queues it, if no older reply waits |
| PollOutcome.EmailsBeforeAFailureStay | mail/libraries/routing_controller.py:120-128 | An email that raises ends the poll; those before it stay taken in, those after it are not |
| PollOutcome.FinalisingExactly | mail/celery_tasks.py:176-202 | For all tables: the task after a delivery moves its own mail on by its status, marks exactly the still unprocessed payloads of a LITE file, and leaves every other mail and task as it is |
| QueueDrain.PollsClearTheQueue | mail/libraries/helpers.py:253-290 | From a ready state each poll without new emails returns and leaves one pending mail fewer, so n polls clear n mails |
| QueueDrain.RowsStayOwn | mail/serializers.py:45-65 | After every run in which no licence email's text recurs, each pending mail has the one row its message is built from |
| QueueDrain.EveryQueueIsCleared | mail/libraries/routing_controller.py:100-118 | After every such run, with no finalising task outstanding and at most one licence file waiting or in flight, n polls clear n mails |
| QueueDrain.QueueIsClearedExactlyWhen | mail/libraries/helpers.py:253-290 | With at most one licence file waiting or in flight, enough polls clear the queue if and only if each pending mail has the one row its message is built from |
| QueueDrain.RepeatedEmailStopsTheQueue | mail/libraries/helpers.py:179-183 | A guarded run, one email taken in twice, after which no number of polls clears the one pending mail |
| QueueDrain.PollRaisesExactlyWhen | mail/libraries/helpers.py:273-288 | For all tables, a poll without new emails raises exactly when two licence files are pending, or the oldest pending mail is one while another is in flight, or has not the one row its message needs; and then it changes nothing |
| IcmsLoop.SaveLicenceReplyEmail | mail/icms/tasks.py:183-212 | The reply is stored exactly when its number has one row and that row's mail is `reply_pending` |
| IcmsLoop.ProcessLicenceReplyAndUsageEmails | mail/icms/tasks.py:24-61 | All messages are stored or, on any exception, none |
| IcmsLoop.SendLicenceDataToIcms | mail/icms/tasks.py:64-147 | The one answered mail becomes `reply_sent` exactly when its reply is valid, its callback can be built and ICMS takes it; more than one, an invalid one, or one without a callback raises |
| IcmsLoop.OneMailAtATime | mail/celery_tasks.py:187-269 | In every run at most one mail is not `reply_sent`, and every finalising task finds its mail `pending` |
| IcmsLoop.RunNumbersAreUnique | mail/libraries/builders.py:206-226 | In every run the numbers are 1, 2, 3, ..., and a number finds its own file only |
| IcmsLoop.PayloadsAreSentOnce | mail/libraries/builders.py:223-224 | In every run no payload is in two files, and a payload is processed exactly when it is in a file that was sent |
| IcmsLoop.NewFileHoldsWhatIsUnprocessed | mail/celery_tasks.py:223-269 | In every run a file is made exactly when every mail is `reply_sent`, some payload is unprocessed and the file is valid; it holds exactly the unprocessed payloads under the next number |
| IcmsLoop.ReplyIsStoredExactlyWhen | mail/icms/tasks.py:183-212 | In every run a reply is stored exactly when it has the last file's number and that file is sent and unanswered, and on that mail only |
| IcmsLoop.AnswerIsPassedOnExactlyWhen | mail/icms/tasks.py:64-124 | In every run passing on moves the last mail to `reply_sent` exactly when its reply is valid, its callback can be built and ICMS takes it, and else changes nothing |
| IcmsLoop.OnlyValidRepliesArePassedOn | mail/icms/tasks.py:74-104 | In every run the "more than 1 records" error cannot happen, a mail that is `reply_sent` holds a reply that was read and valid, and passing on raises exactly when the reply waiting is not, or has no callback |
| IcmsLoop.CallbackIsBuiltExactlyWhen | mail/icms/tasks.py:127-147 | In every run a callback can be built exactly when the number in the reply's header is that of a file and every reference is that of a payload of this file |
| IcmsLoop.CallbackIsAboutItsOwnMailExactlyWhen | mail/icms/tasks.py:129-133 | In every run the payloads a reply is answered from are those of the mail it is stored on exactly when the number in its header is that mail's |
| IcmsLoop.ConsistentRepliesAnswerTheirOwnFile | mail/icms/tasks.py:183-212 | In every run whose replies carry one number in subject and header, every stored reply is answered from its own file's payloads |
| IcmsLoop.WrongAttachmentAnswersAnotherFile | mail/icms/tasks.py:187-204 | A run in which the second file's mail is passed on with a callback holding the first file's payload |
| IcmsLoop.FailedSendingStopsTheLoop | mail/celery_tasks.py:228-237 | After a sending that failed for good no file is ever made and no mail ever changes |

## Left out

- POP3, SMTP, OAuth, Hawk signing, HTTP and MIME: a send succeeds or fails, and an email arrives as its type, number and text.
- Marking messages as read, and which mailbox they come from.
- `textwrap` and `unidecode` on addresses, and Django's field validation: a payload has its final address lines, and an email is acceptable or not.
- The postcode regular expression: a parameter of the validator and of every claim about it.
- Unicode: white space, digits and letters are ASCII, and `int()` takes no underscores.
- A CHIEF_SOURCE_SYSTEM other than SPIRE and ILBDOTI, and negative ICMS unit codes.
- Mapping tables are sets and maps, so a duplicate mapping row and its `MultipleObjectsReturned` cannot occur; LicenceData and UsageData lookups keep theirs.
- `LicenceData.objects.last()` between rows of one mail: the later row is taken, which SQL does not promise.
- A finalising task, and the storing of LITE's answer, is one step; a crash between its two writes is not modelled. A task linked inside a transaction starts after that transaction.
- Saving a mail writes the row as the step read it; two steps that write one mail at the same time are modelled only by `SendLock` and by the order of whole steps.
- Building a message is assumed not to fail on malformed file names in the workflow; failing row lookups and replies that cannot be merged are modelled.
- `skip_process`, the ICMS usage data, `resend_email`, `mock_hmrc`, the admin override of statuses, anonymisers, health checks, notifications, settings and migrations.
- That `get_transaction_reference` is injective: it drops the licence type, so it is not.
