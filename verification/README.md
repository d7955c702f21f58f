# SecureDocs, modelled and proved

SecureDocs is a document-sharing server. Underneath its routes it is a small concurrent protocol over one SQLite
database, an upload folder, a secret file and a browser page: a request reads early, works for a while, then checks
again and writes under the write lock, and any number of requests interleave between those points. This project
models that protocol and proves what every interleaving keeps. `dafny verify dfyconfig.toml` checks all of it.

| file | what it holds |
|---|---|
| `Timestamps.dfy` | instants as `isoformat()` texts, and why SQL may compare them as text |
| `Accounts.dfy` | users, reset tokens and revoked tokens; each database write as a function and as a method |
| `Sessions.dfy`, `SessionInvariant.dfy`, `SessionSafety.dfy`, `ResetExpiry.dfy`, `SessionRaces.dfy` | login, refresh, logout, password change and reset, register, as interleaved steps; the invariant; what follows from it; how long reset tokens last; two runs that mark its limits |
| `SessionProvenance.dfy`, `SessionOrigins.dfy`, `SessionServices.dfy` | what each step of a request may do; the actions and credentials behind every token, change, reset and account of a run; what each request achieves undisturbed |
| `Transactions.dfy` | `execute` and `transaction()` on a connection |
| `Library.dfy` | documents, shares, comments, attachments and the deletion queue; each write as a function and as a method |
| `DocumentRequests.dfy` | the requests on those tables and the upload folder, as interleaved steps that may fail |
| `RequestProvenance.dfy`, `DocumentServices.dfy` | the actions behind every committed entry and every column; when each request is granted and what it achieves undisturbed |
| `FileSafety.dfy`, `CleanupSafety.dfy`, `RightsSafety.dfy`, `ReadRequests.dfy`, `QuotaSafety.dfy` | folder against tables, clean-up passes, who may do what, what readers are shown, limits |
| `ShareRows.dfy`, `Startup.dfy` | the shares table as rows with its queries, and the repairs at start-up |
| `Listing.dfy`, `Paths.dfy`, `Validation.dfy` | lists and pages, sealed paths, JSON validation |
| `SecretStore.dfy` | creation of the secret store by many processes that may crash |
| `FrontEnd.dfy`, `FrontEndSafety.dfy`, `FrontEndAccounts.dfy`, `FrontEndShown.dfy`, `FrontEndDocuments.dfy` | the page's script, its session generations, when page and cookie agree, whose data and which document's comments it shows |

Each write is modelled twice: as a function on the tables, which the state machines and lemmas use, and as a class
method that updates fields in place and is proved equal to the function. A state machine has a function
`Apply(world, action)`; a run is any sequence of actions, so a statement about `Run` is about every interleaving of
any number of requests. Worlds also record history (when a row was read, which changes committed, which token
replaced which), on which no step's effect on the system depends. The set of stored names ever drawn is no such
record: the assumption that a drawn name is fresh reads it.

## Results that are not plain confirmations

* **A logged-out token can come back.** A request tests expiry, revocation and epoch one after the other. It may
  present a revoked token just before `exp` and run the revocation query after it, when a purge has dropped the row.
  It is then identified, and if it is a refresh it gets a new token (`LateCheckRevivesToken`, one run with the three
  moments: logged out before the request began, identified after `exp`, renewed).
  `RevocationCheckIff` and `CheckAfterPurgeIff` say exactly when the query passes; `RevokedNotIdentifiedInTime` is
  what holds over all runs: up to `exp`, no request that comes after the revocation is identified.
* **A late refresh forks a session.** The check inside the refresh transaction does not look at `exp` again either.
  `RefreshCommitsIff` says exactly when a refresh commits, `CommitForksIff` when the new token has an accepted rival
  afterwards, and `LateRefreshForksFamily` gives a reachable state with two live tokens of one login. The docstring
  of `refresh` promises immediate revocation without these cases; the model follows the code. `RefreshedOnceInTime`
  and `FamilyHasOneSession` are the statements that do hold.
* **The share clean-up can take editing away.** `can_edit` accepts any row of the pair that allows editing, the
  clean-up keeps only the last one. Reading is always kept; `CleanKeepsEditingIff` has the exact condition for
  editing, `CleanCanTakeEditing` an input. Tables written by the current code have one row per pair and never change.
* **Two sign-ins mix accounts in the page.** The browser takes a cookie when the headers of an answer arrive, the
  script takes notice when the body is there and only if no other sign-in came first. `AgreementKeptIff` gives the
  two steps, and no others, that part page and cookie for longer than the time between headers and body.
  `DroppedSignInMixesAccounts` and `OvertakenCookieMixesAccounts` are a run for each; the page names one account and
  shows the profile of the other.
* **Logout clears eight panels and the inputs, not the header and the sign-in message.** The user name in the header
  stays in the hidden part of the page (`LogoutClearsExactly`).
* **A reader can see text that was never public.** `get_document` reads the row before it asks for access. An owner
  who empties a private document and publishes it in one edit shows the old text to a request in between
  (`RedactedTextIsShown`). `HiddenAnswerIff` says exactly when the answer was not readable when it was read,
  `HiddenAnswerNeedsOwner` that only the owner's opening the document meanwhile can cause it. `list_comments` asks
  first and reads later, so a comment written after a share was revoked can be shown (`CommentAfterRevokeIsShown`).
* **The offset cap can hide documents.** Paging reaches the whole list exactly when it has at most
  `(100000 / limit + 1) * limit` rows (`PagesCover`).
* **The size backfill can break a limit.** `BackfillWithinLimitsIff` gives the exact condition, the uploader's counted
  and uncounted bytes together; `BackfillCanExceed` a table within limits before and beyond them after.
* **Comments can appear under another document.** A comments answer is not compared with the document that is open
  when it arrives. `CommentsMatchIff` gives the exact step that goes wrong, `LateCommentsMixDocuments` a run that
  leaves one document's comments under another.

## Assumptions

* Token ids, stored names, reset tokens and salts are fresh when drawn. Hashes are ideal: a hash verifies exactly the
  password it was made from. Signatures are unforgeable: a request presents claims that were issued.
* Write transactions are serial and each autocommit statement is atomic. A query that compares with the clock runs at
  the instant it read the clock.
* The clock never goes back and stays before the year 10000.
* `AUTOINCREMENT` ids are not reused and users are never deleted.
* A process is not killed during an upload, and putting a failed upload in the queue succeeds. Every other write,
  insert and unlink may fail.
* Initially the tables are within their limits, and files and rows agree.
* Only the server writes the directory of the secret store, and a crash is one of the process, not of the machine.
* One event-loop task of the page is one step, and a response whose headers arrived gets its whole body. Only this page
  uses the browser's cookie.

## Model

| member | source | states |
|---|---|---|
| Timestamps.DateAfterOrdinal | app/auth.py:125-127 | The calendar walk behind a rendered date agrees with the closed Gregorian day count, for every day number |
| Timestamps.FourDigitYear | app/auth.py:125-127 | Every instant before the limit has a four-digit year, so all texts share one layout |
| Timestamps.IsoFormat | app/auth.py:125-126 | The text compared is the one of `isoformat()`: date, T, time, microseconds unless zero, and the UTC offset |
| Timestamps.FieldOrderIsTimeOrder | app/auth.py:125-127 | Comparing year, month, day, hour, minute, second, microsecond in order is comparing instants |
| Timestamps.RenderOrder | app/auth.py:125-127 | Byte-wise order of zero-padded texts is the order of their fields |
| Timestamps.TailOrder | app/auth.py:125-127 | It stays so where one text leaves out the microseconds, because '+' sorts before '.' |
| Timestamps.TextOrderIsTimeOrder | app/auth.py:125-127 | For all instants, SQLite's comparison of `isoformat()` texts is the comparison of the times |
| Accounts.AccountStore.IsTokenActive | app/auth.py:67-72 | Answers exactly whether the jti is not revoked and the user's epoch is the token's |
| Accounts.AccountStore.RevokeToken | app/auth.py:123-129 | Purges every row with an older expiry text, then inserts the jti unless present, and changes nothing else |
| Accounts.AccountStore.CreateUser | app/auth.py:157-168 | Inserts the user exactly when the name is free, otherwise leaves the tables alone |
| Accounts.AccountStore.UpgradeHash | app/auth.py:187-191 | Replaces the hash only if it is still the one that was read, and keeps the epoch |
| Accounts.AccountStore.StorePassword | app/profile.py:35-39 | New hash, next epoch and all reset tokens of the user used, together |
| Accounts.AccountStore.ChangePasswordLocked | app/profile.py:94-101 | Stores the password and returns the new row exactly when the epoch is the one first read |
| Accounts.AccountStore.ConfirmResetLocked | app/profile.py:151-158 | Changes the password exactly when the token row exists, is unused and unexpired at the lock |
| Accounts.AccountStore.RefreshLocked | app/auth.py:224-228 | Revokes and reissues exactly when the token is active at the lock, whatever its expiry |
| SessionInvariant.StepKeeps | app/auth.py:67-228 | Every step of every request keeps the invariant that ties tokens, snapshots and reset tokens to the last change |
| SessionInvariant.PurgeKeepsRevoked | app/auth.py:123-129 | Purging at a past instant drops only revocations whose token has expired |
| SessionInvariant.UpgradeKeeps | app/auth.py:187-191 | A login's re-hash, however late, keeps every stored password the one its user's last committed change chose |
| SessionInvariant.CommitPasswordKeeps | app/profile.py:35-39 | A committed password change keeps the invariant for all other requests in flight |
| SessionSafety.AcceptedIffCurrent | app/auth.py:67-95 | At any one instant the expiry test and the two queries together pass if and only if the token is unexpired, was never revoked, and no password change committed since its row was read |
| SessionProvenance.LoginGoesOnIff | app/auth.py:180-194 | A login request goes on if and only if the account exists and the password is the one its last change, reset or registration chose |
| SessionProvenance.PresentGoesOnIff | app/utils.py:74-81 | A token is taken if and only if the clock is before the second its expiry names, with its own claims |
| SessionProvenance.ExpiredNeverPresented | app/auth.py:82-86 | Once the clock has reached the expiry, no request that has not presented the token is identified by it in any later run |
| SessionProvenance.StepTurns | app/auth.py:67-228 | What each step may make of its own request, value by value, and that it moves no other |
| SessionProvenance.EffectAdds | app/auth.py:67-228 | Everything a step adds to users, tokens, changes, reset rows and revocations is what its own request holds |
| SessionOrigins.TokensComeFromCredentials | app/auth.py:132-205 | In every run each token goes back to a request that registered its account, gave the password of the moment it read the row, or presented a token of the same account to change the password or, within one login, to refresh |
| SessionOrigins.ChangesComeFromRequests | app/profile.py:77-158 | Each committed change carries the words of a request that presented a token of the account, or of one with a reset token for it |
| SessionOrigins.RowsComeFromRequests | app/profile.py:115-130 | A reset row issued in the run is for the account its request named; a jti is revoked only by a request that presented it to log out or refresh |
| SessionOrigins.AccountsComeFromRegistrations | app/auth.py:145-169 | A new account has the name and the first password that its registration gave |
| SessionOrigins.NamesStayDifferent | app/auth.py:159-167 | No two accounts come to share a name |
| SessionServices.LoginAlone | app/auth.py:172-194 | Undisturbed, the right password gets an accepted token of the account for an hour, and renews only an old hash |
| SessionServices.RegisterAlone | app/auth.py:143-169 | Undisturbed, a free name gets an account with the password given and an accepted token |
| SessionServices.LogoutAlone | app/auth.py:197-205 | Undisturbed, logout revokes the token presented, drops exactly the rows of expired tokens and leaves the other tables alone |
| SessionServices.RefreshAlone | app/auth.py:217-228 | Undisturbed, a refresh exchanges the token for an accepted one of the same account and login |
| SessionServices.ChangeAlone | app/profile.py:77-101 | Undisturbed, a change stores the new password, uses up the account's reset tokens, refuses every earlier token of the account and returns an accepted one |
| SessionServices.ChangeRefused | app/profile.py:86-88 | With a wrong current password nothing changes |
| SessionServices.ResetRequestAlone | app/profile.py:115-130 | Undisturbed, a reset request leaves an unused row for the account named, stamped with the clock |
| SessionServices.ResetConfirmAlone | app/profile.py:133-158 | Undisturbed, a usable reset token gives its account, and no other, the chosen password |
| SessionSafety.IdentifiedIffCurrent | app/auth.py:67-72 | The epoch query of a request passes exactly when no change committed after the token's row was read |
| SessionSafety.StaleTokenNeverAccepted | app/profile.py:94-101 | Once a change commits, at no later instant do the tests pass for a token whose row was read before, even one issued afterwards |
| SessionSafety.StaleTokenNeverIdentified | app/auth.py:75-95 | A request not yet identified when a change commits is in no later run identified by a token whose row was read before |
| SessionSafety.RevokedNeverAccepted | app/auth.py:123-129 | At every later instant a jti once revoked is in the table or has expired, so the tests taken together at that instant refuse it |
| SessionSafety.RevocationCheckIff | app/auth.py:67-72 | The revocation query of a request passes if and only if the token was never revoked, or has expired and lost its row; up to the expiry it is the ideal test |
| SessionSafety.CheckAfterPurgeIff | app/auth.py:123-129 | Right after a purge a revoked token passes the query if and only if its row was gone or its expiry is before the purge's stamp; with a stamp of now, if and only if it has expired |
| SessionSafety.RevokedNotIdentifiedInTime | app/auth.py:75-95 | In every later run, while the clock has not passed the expiry, no request that had not passed the query before the revocation passes it with that token |
| SessionSafety.PurgeDecides | app/auth.py:125-127 | A purge with any stamp, by any request, drops a row if and only if its token expired before the stamp |
| SessionRaces.LateCheckRevivesToken | app/auth.py:75-95 | One run in which a token is logged out before its expiry and before request 6 begins, the request is identified by it after its expiry, and then turns it into an accepted token |
| SessionSafety.ChangeConfirmsStoredPassword | app/profile.py:81-101 | At each committed change the given current password verifies the hash stored at that moment |
| SessionSafety.PasswordIsLastChosen | app/auth.py:188-191 | The stored hash verifies exactly the password that the user's last committed change, reset or registration chose |
| SessionSafety.EpochMovesWithPassword | app/profile.py:35-39 | An epoch grows by one exactly when a change of that user commits; otherwise epoch and password stay |
| SessionSafety.ResetsUseNewTokens | app/profile.py:144-158 | A later successful reset used a token inserted after the previous change, so no token and no two of one batch succeed twice |
| ResetExpiry.ResetUsableIff | app/profile.py:124-128 | In every reachable state a token issued in the run passes the reset query if and only if it is unused and less than half an hour has passed since its request read the clock |
| ResetExpiry.ResetCommitsIff | app/profile.py:151-158 | A reset waiting for the lock commits if and only if that holds at the lock, and otherwise changes no row |
| SessionSafety.RefreshedOnceInTime | app/auth.py:217-228 | In any run at most one refresh of a token commits by its expiry |
| SessionSafety.FamilyHasOneSession | app/auth.py:217-228 | A login never has two accepted tokens, unless in its family a token was refreshed that had been revoked before |
| SessionSafety.RefreshCommitsIff | app/auth.py:224-228 | In every state a waiting refresh commits if and only if no row names its token and no password change followed its reading; a revoked token lacks its row only after its expiry |
| SessionSafety.CommitForksIff | app/auth.py:224-228 | The token a refresh issues is accepted, and has an accepted rival afterwards if and only if the token it replaces had one before; never when that token was unrevoked in an unforked family |
| SessionRaces.LateRefreshForksFamily | app/auth.py:217-228 | A reachable state in which one login has two accepted tokens |
| Transactions.Connection.Execute | app/db.py:43-50 | Outside a transaction a write commits at once, or raises and leaves the driver's own transaction open; inside, the committed state stays |
| Transactions.Connection.Transaction | app/db.py:59-72 | The committed state afterwards is the whole body or the old one, and autocommit mode returns either way; with a transaction already open it raises and changes nothing |
| Transactions.Connection.ExecuteEach | app/db.py:43-50 | The same statements ungrouped stop at the first that raises, leave what came before committed and a transaction open |
| Transactions.PrefixesAreBeginnings | app/db.py:43-50 | Each state an ungrouped body publishes is that of one of its beginnings, and all are there unless a statement raises |
| Transactions.SetPasswordIsOneCommit | app/profile.py:35-39 | Grouped, the two statements are the one step of the session protocol |
| Transactions.UngroupedLeavesResetUsable | app/profile.py:35-39 | Ungrouped, a failure in between would leave the new password with a reset token still usable |
| Library.LibraryStore.CreateDocument | app/quotas.py:7-12 | Inserts under the next id exactly when the owner is below the limit |
| Library.LibraryStore.UpdateDocument | app/documents.py:103-130 | The column loop ends in one update, in which each column is the one given or else as before, or in the first refusal with the tables unchanged |
| Library.LibraryStore.DeleteDocumentRows | app/documents.py:144-150 | Queues the document's files and removes the document and all its child rows, nothing else |
| Library.LibraryStore.ShareDocument | app/sharing.py:72-74 | Sets the one right of the pair; a document that is gone takes none |
| Library.LibraryStore.RevokeShare | app/sharing.py:98 | Removes the pair's right only |
| Library.LibraryStore.CleanupDeletedFiles | app/files.py:21-35 | A pass removes exactly the queued names that are sealed and not stuck, each together with its file |
| Library.LibraryStore.Upload | app/files.py:93-116 | Attaches row and file together, or leaves the tables; a file created in vain is on disk only if it is queued |
| Library.KeptAttachment | app/documents.py:148-149 | Deleting the rows of a document keeps exactly the other rows |
| Library.KeptDistinct | app/documents.py:144-149 | The names queued and the names still attached are disjoint and together the old ones |
| Library.CommentsCounted | app/comments.py:47-49 | The figure compared with the limit is the number of the document's comments |
| Library.FilesCounted | app/files.py:98-102 | The figure compared with the limit is the number of the uploader's attachments |
| Library.BytesAdded | app/files.py:98-102 | The bytes compared with the limit add up row by row |
| DocumentServices.CreateAlone | app/documents.py:51-63 | A document is created under the next id if and only if the visibility is known and the owner has fewer than the limit |
| DocumentServices.EditAlone | app/documents.py:103-130 | An edit is carried out if and only if the caller may edit and gives no visibility, or a known one that is the old one or the owner's; then each column is the one given or as before |
| DocumentServices.ShareAlone | app/sharing.py:59-77 | The owner's share lets the target read, and edit if and only if the owner said so |
| DocumentServices.UnshareAlone | app/sharing.py:93-100 | The owner's revoke leaves the target with what everybody has |
| DocumentServices.DeleteAlone | app/documents.py:133-152 | The owner's delete removes exactly the document and its rows, queues its files and goes on to clean up |
| DocumentServices.OthersAreRefused | app/sharing.py:65-66 | Somebody else's share, revoke or delete ends at its first check |
| DocumentServices.CommentAlone | app/comments.py:31-53 | A comment is added if and only if the author may read and the document has fewer than the limit |
| DocumentServices.UploadAlone | app/files.py:55-116 | When nothing fails, a file is attached with its content if and only if the user may edit and is within both limits |
| DocumentServices.FailedUploadAlone | app/files.py:103-114 | A failed write leaves a part of the content, lets go of the lock and queues the file for deletion |
| FileSafety.StepKeeps | app/files.py:92-114 | Every step, failed or not, keeps the accounting of files, rows, queue and uploads in flight |
| FileSafety.FolderAndTablesAgree | app/files.py:92-114 | In every interleaving each file is attached, queued or owned by an upload; no queued name is attached; each row has its file of the recorded size |
| FileSafety.QuietFolderHasNoOrphans | app/files.py:92-114 | With no upload in flight the folder holds attached and queued files only |
| FileSafety.OnlyFinishedEntriesLeave | app/files.py:21-35 | An entry leaves the queue only when its file is gone, and no step unlinks an attached file |
| FileSafety.AttachedContent | app/files.py:103-109 | What an upload attaches is what the client sent, whatever ran in between |
| CleanupSafety.StepNameOk | app/files.py:21-35 | Every step keeps an attached file's content, or deletes its row; a name that no row and no upload carries is never carried again |
| CleanupSafety.UploadedContentKept | app/files.py:103-109 | In every later run the file holds what the client sent for as long as its row is there |
| CleanupSafety.AttachedFilesNeverChange | app/documents.py:144-150 | The same for any attached file, and its content stays until the file goes; once its row is deleted the name is never attached again |
| CleanupSafety.SettledForGood | app/files.py:21-35 | Neither file nor queue entry of such a name ever comes back |
| CleanupSafety.PassRemovesExactly | app/files.py:21-35 | The names a pass read are exactly those it unlinked or found gone and those it skipped; at its end the former are sealed, off the queue and off the disk whatever ran meanwhile, and one of the latter is gone only through another pass |
| CleanupSafety.SealedOnesFail | app/files.py:24-34 | A pass skips a sealed name only because unlinking it raised |
| CleanupSafety.SomebodyDequeued | app/files.py:21-35 | In any run a name leaves the queue only because some request's pass finished it |
| CleanupSafety.GeneratedNamesDrain | app/files.py:21-35 | A generated name that a pass read and on which none of its unlinks raised is off queue and disk at its end, whatever else is queued, fails or runs |
| CleanupSafety.QueueCanDrain | app/files.py:38-43 | From any quiet state with generated names some run empties the queue |
| CleanupSafety.PassAloneIsARun | app/files.py:21-35 | The loop of the method is a run of the protocol's steps |
| Paths.GeneratedIsSealed | app/files.py:46-52 | A generated name resolves to its own file directly inside the folder |
| Paths.NotClimbingIsSealed | app/files.py:46-52 | Any relative name that never climbs above the folder is sealed |
| Paths.SealedIff | app/files.py:46-52 | A relative name is sealed if and only if it comes back into every folder level it leaves, an absolute one if and only if it starts with the folder's own path |
| Paths.ClimbingIsRefused | app/files.py:46-52 | A name that goes up any number of levels and down into one component is refused unless that component is the folder itself, seen from just above |
| Paths.AbsoluteIff | app/files.py:46-52 | An absolute name of plain components is sealed if and only if the folder is a prefix of them |
| Paths.NeighboursAreRefused | app/files.py:46-52 | What lies beside the upload folder is refused, by its relative and by its absolute name |
| RightsSafety.OthersDoNotMatter | app/sharing.py:14-45 | Striking another user's request from a document's history changes no right on it |
| RightsSafety.RightsAreOwnersReplay | app/sharing.py:14-45 | In every interleaving, who may read and who may edit is what replaying the owner's actions gives |
| RightsSafety.EveryTableMatches | app/sharing.py:14-45 | Every starting table has rights to replay from |
| RightsSafety.StepLawful | app/documents.py:108-129 | Each step changes rights only as its logged entry says, under authority held at that moment |
| RightsSafety.WritesAreAuthorised | app/sharing.py:59-100 | Every committed write was authorised in the state it committed on, touched its own document only and changed the tables exactly as its entry says, or changed no row |
| RightsSafety.OwnersNeverChange | app/documents.py:115-129 | A document that lives on keeps its owner and a deleted id never returns |
| RequestProvenance.EntriesComeFromRequests | app/sharing.py:59-100 | In every run each committed entry of all seven kinds was asked for by an action of the same actor, document, target, flag, columns and content |
| RequestProvenance.StepMoves | app/documents.py:103-152 | What each step may make of its own request and log, value by value |
| RequestProvenance.ColumnsFollowEdits | app/documents.py:115-129 | In every interleaving each column of a document is what the last committed edit naming it says, else the earlier value |
| ReadRequests.TextIsEditsReplay | app/documents.py:115-129 | In every interleaving a document's row is the earlier row with the committed edits applied in order |
| ReadRequests.LetInFollowsOwner | app/sharing.py:14-25 | What `can_access` answers over its two queries is decided by the owner's actions up to each of them |
| ReadRequests.HiddenAnswerIff | app/documents.py:66-81 | The answer shows a row the caller could not read when it was read if and only if the owner's actions had not let the caller in by then and had by the queries of the access check |
| ReadRequests.HiddenAnswerNeedsOwner | app/documents.py:66-81 | Such an answer needs the owner to open the document to the caller meanwhile; a text that is no longer there at the check needs an edit in between |
| ReadRequests.UndisturbedReadIff | app/documents.py:66-81 | If the owner neither opens nor closes the document to the caller meanwhile, the answer is that of one instant |
| ReadRequests.AccessIsServed | app/documents.py:66-81 | At one instant whoever may read a document is shown it with exactly its attachments, and can download each of them |
| ReadRequests.RedactedTextIsShown | app/documents.py:71-81 | A run of one edit after whose committing a stranger is shown the text that the edit took out |
| ReadRequests.LateCommentsNeedOwner | app/comments.py:16-28 | The answer holds exactly the comments at the moment of reading, none if the document is gone; if the caller could not read then, the owner closed the document meanwhile |
| ReadRequests.CommentAfterRevokeIsShown | app/comments.py:21-28 | A run in which a comment written after a revoke is shown to the user whose share was revoked |
| ReadRequests.DownloadServesTheUpload | app/files.py:119-138 | A download serves byte for byte the file that was attached, of the recorded size, to somebody who had access in one of the two queries |
| QuotaSafety.StepKeeps | app/quotas.py:7-12 | No step leaves the limits on documents, comments, attachments and bytes |
| QuotaSafety.LimitsHold | app/files.py:95-109 | From a state within limits every interleaving stays within them, deletes of several uploaders' rows included |
| Listing.SelectedIsAccess | app/documents.py:40-48 | The WHERE clause selects exactly what `can_access` allows, with a matching title |
| Listing.ListsExactlyWhatIsAccessible | app/documents.py:22-48 | List and search hold exactly the accessible documents, in strict id order |
| Listing.ListingFollowsOwners | app/documents.py:17-29 | After any run a document is listed for a user exactly when its owner's actions let the user read it |
| Listing.PagesAreAPrefix | app/validation.py:54-62 | The first k pages concatenate to the first k * limit rows |
| Listing.PaginationIff | app/validation.py:54-62 | A window is accepted if and only if it has 1 to 100 rows and starts at row 0 to 100000 |
| Listing.PageIsServed | app/validation.py:54-62 | Page k is answered if and only if it starts within the offset cap |
| Listing.PagesCover | app/validation.py:54-62 | All served pages together are a prefix of the rows, and all rows exactly up to a stated length |
| ShareRows.QueriesReadTheMap | app/sharing.py:14-45 | On the rows that writes leave, the two queries decide what the rights on the map decide |
| ShareRows.CleanKeepsLatest | app/db.py:84-86 | The clean-up leaves one row per document and user, the last inserted one, and nothing else |
| ShareRows.CleanFixesUniqueTables | app/db.py:84-86 | It changes nothing exactly on tables with one row per pair, and is idempotent |
| ShareRows.CleanKeepsReading | app/sharing.py:14-25 | Who may read a document by the query is the same before and after |
| ShareRows.CleanKeepsEditingIff | app/sharing.py:31-42 | No editing is granted, and it is kept if and only if the user is the owner, the last row of the pair allows it, or no row did |
| ShareRows.CleanCanTakeEditing | app/sharing.py:36-42 | Two rows with which a user may edit before the clean-up and not after |
| ShareRows.CleanPreservesGrants | app/db.py:83-86 | What the rows stand for afterwards is what the last row of each pair said before |
| ShareRows.UpsertIsShare | app/sharing.py:72-74 | The upsert on rows is the update of the map of rights, and leaves nothing to clean |
| ShareRows.RemoveIsUnshare | app/sharing.py:98 | Deleting a pair's rows removes that right from the map and no other |
| ShareRows.RemoveIsDropShares | app/documents.py:148-149 | Deleting a document's share rows removes its rights and no others |
| ShareRows.RestartKeepsShares | app/db.py:84-86 | After any interleaving of requests a restart leaves every share row, and the rows answer both queries as the model's rights do |
| Startup.GroupMaxima | app/db.py:84-85 | One pass over the rows finds the greatest id of every group |
| Startup.BackfillTwice | app/db.py:91-95 | The size backfill is idempotent |
| Startup.BackfillIsExact | app/db.py:91-95 | Only sizes change; a row with a sealed file ends with the file's length if and only if it had that size or none, every other row stays |
| Startup.BackfillUsage | app/db.py:91-95 | Usage grows by exactly the bytes of the uploader's unmeasured files |
| Startup.BackfillWithinLimitsIff | app/db.py:91-95 | Tables within limits stay there if and only if counted and unmeasured bytes of every uploader fit the limit together |
| Startup.BackfillCanExceed | app/db.py:91-95 | A table within limits before the backfill and beyond them after |
| Startup.RestartKeepsAttachments | app/db.py:91-95 | After any run of requests a restart changes no attachment |
| Startup.SchemaRepair.EnsureSchema | app/db.py:84-95 | Grouping, deleting and the loop over the unmeasured rows do exactly the clean-up and the backfill |
| Validation.ValidateObject | app/validation.py:15-46 | The field loop and the checks accept exactly what the specification accepts, with the same result |
| Validation.OnlySsnIsRewritten | app/validation.py:15-46 | Only the resident number is rewritten, to its normal form, here and in a backup |
| Validation.ValidateTwice | app/validation.py:15-46 | Validating an accepted object again returns it unchanged |
| Validation.NormalFormIsCanonical | app/validation.py:40-45 | Two spellings normalise alike if and only if they have the same digits |
| Validation.SsnShapeIff | app/validation.py:42 | Accepted are exactly six digits, a dash or nothing, and seven digits |
| Validation.MaskTellsSixDigits | app/profile.py:42-49 | Two masks are equal if and only if the first six digits are, and a mask is never accepted as a number |
| Validation.OthersAreHidden | app/profile.py:42-49 | A stored text that is not a number is shown as a fixed mask, an empty one not at all |
| SecretStore.SecretDirectory.LoadOrCreate | app/config.py:38-79 | One undisturbed call, with an exception at any point of the creation, leaves the stated store and keys and no temporary |
| SecretStore.SoloIsARun | app/config.py:38-79 | That call is a run of the protocol's system calls |
| SecretStore.StepKeeps | app/config.py:48-79 | Every system call and every crash keeps the invariant of lock, temporaries and store |
| SecretStore.StoreAbsentOrComplete | app/config.py:54-65 | With any processes and crashes a store once there never changes, and one made here is complete whenever it is there |
| SecretStore.TemporariesAreAccounted | app/config.py:56-65 | With any processes and crashes, temporaries of the beginning stay untouched and each other one belongs to exactly one process, which holds the lock or has crashed |
| SecretStore.CallersAgree | app/config.py:77 | Two successful callers agree on every key neither takes from its environment |
| SecretStore.CallersGetValidKeys | app/config.py:26-35 | Every successful caller has three valid keys, its own environment first |
| SecretStore.LoadIff | app/config.py:67-77 | A store serves a caller if and only if it is private and holds, with the caller's own keys first, two secrets of at least 32 bytes and a usable data key |
| SecretStore.BadStoreStopsCallers | app/config.py:67-77 | A caller that needs an existing store succeeds only with what that store gives |
| FrontEnd.Script.Api | static/app.js:7-11 | Sending records the generation of the moment and the cookie it carries |
| FrontEnd.Script.SignedIn | static/app.js:37-51 | Sets the user and enters the app on success, writes the error text otherwise |
| FrontEnd.Script.SignedOut | static/app.js:53-64 | The loop over the ids and the inputs clears the page and ends the generation, only on success |
| FrontEnd.Script.Enter | static/app.js:65-76 | Starts a generation, names the user and asks for the documents |
| FrontEnd.Script.Detail | static/app.js:139-158 | Rewriting the panel replaces the comments box and asks for comments only on success |
| FrontEnd.Script.Admin | static/app.js:198-204 | The second request goes out whatever became of the first |
| FrontEnd.Script.Lists | static/app.js:98-187 | The loaders write their elements on success and nothing otherwise |
| FrontEnd.Script.Headers | static/app.js:11 | The headers of a response set the cookie, once, whatever the script will make of it |
| FrontEnd.Script.Continue | static/app.js:12-15 | With the body there the generation is compared and exactly the request's handler runs |
| FrontEndSafety.StaleIsInert | static/app.js:13 | A stale response changes no session state and shows no data, at most a fixed text |
| FrontEndSafety.OnlyFreshSignInsMoveOn | static/app.js:53-76 | The generation moves exactly on a fresh successful sign-in or sign-out |
| FrontEndSafety.HandlerShows | static/app.js:98-209 | An element a handler writes shows the answer just received, at most next to the one its request carried along |
| FrontEndSafety.BumpRetiresAll | static/app.js:7-15 | Once the generation moves, every request still open is stale for good, so of sign-ins sent together one takes effect |
| FrontEndSafety.LogoutClearsExactly | static/app.js:53-64 | Logout blanks every element but the header and the sign-in message, leaves those as they are and closes the document |
| FrontEndSafety.LogoutSeparatesSessions | static/app.js:53-64 | Whatever follows a logout, no element but the sign-in message ever shows an answer to a request sent before it |
| FrontEndAccounts.AgreementKeptIff | static/app.js:7-15 | From every reachable page whose cookie is of the account it names or is about to name, a step keeps that if and only if it is not one of two: headers too late for the script with another account's cookie, or notice taken of one account while the cookie is another's |
| FrontEndAccounts.PageAndBrowserAgree | static/app.js:7-15 | In every run without those steps page and cookie are of one account whenever nothing is between its headers and its body |
| FrontEndShown.ShownDataIsTheUsers | static/app.js:98-209 | In runs in which no two sign-ins or sign-outs clash, every answer shown outside the sign-in message was given to the account the page names, or to nobody |
| FrontEndShown.DroppedSignInMixesAccounts | static/app.js:37-51 | Two logins sent together, the second answered too late for the script: the page names one account and shows the other's profile |
| FrontEndShown.OvertakenCookieMixesAccounts | static/app.js:7-15 | The same with both headers in before the first body is |
| FrontEndDocuments.CommentsMatchIff | static/app.js:139-165 | A step keeps the shown comments with the open document if and only if it does not deliver another document's |
| FrontEndDocuments.ShownCommentsMatch | static/app.js:139-165 | In a run that delivers none, the comments shown are always those of the open document |
| FrontEndDocuments.LateCommentsMixDocuments | static/app.js:157-165 | A run that ends with one document's comments under another, and no comments request left to repair it |

## Left out

- Routing, rate limits, response headers, the CSRF header test, Bearer headers and cookies beyond the page's own: wiring and single decisions.
- Argon2, Fernet, SHA-256 and JWT encoding: ideal, see the assumptions; `encrypt_field` and `decrypt_field` do not appear.
- File validation, PDF export, URL preview, templates and comment sanitising: foreign code; an upload's validation is any yes or no before its first step.
- Reseeding (`app/seed.py`), admin role changes, API tokens, profile reads and updates and `/me`: they touch none of the state the results speak of, or have no invariant.
- The columns and indexes `ensure_schema` adds; its repairs of rows are modelled.
- The password policy: any password may pass it, so the results hold under every policy.
- LIKE: any predicate on titles, which covers case folding and wildcards.
- Query-string numbers are taken as parsed by `int()`, and rows are listed by their ids, without the other columns.
- FamilyHasOneSession: for families in which no revoked token was refreshed; `CommitForksIff` says which of those commits leave two accepted tokens.
- RevokedNeverAccepted: of the three tests at one instant; what a request sees that makes them one after the other is in `RevocationCheckIff` and `RevokedNotIdentifiedInTime`.
- LoadOrCreate: one call alone; the interleavings of many are the state machine's, with which `SoloIsARun` connects it.
- CleanupDeletedFiles: one pass alone; passes among other requests are in `PassRemovesExactly`, and `PassAloneIsARun` connects the two.
- EnsureSchema: the folder does not change during the loop, since requests start afterwards.
- GeneratedIsSealed: without symbolic links inside the upload folder.
- ValidateObject: the object is a value and the result is returned, where the code also rewrites its argument in place; error texts are one refusal.
- LogoutSeparatesSessions: toasts, inputs other than the profile's, and hidden or shown panels are not modelled.
- CallersAgree: `mkdir`, permissions of the directory and the bytes of the JSON text are not modelled; a file is what `json.load` makes of it.
