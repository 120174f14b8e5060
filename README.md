# Growgle backend core, modelled in Dafny

This project models the request-handling core of the Growgle backend. That is a
Node/Express service that keeps user profiles and career roadmaps in Firestore,
stores résumés on Cloudinary, and compiles LaTeX résumés with the Tectonic
compiler. The model covers:

- **LaTeX compilation** (`compileLatex`): the admission checks, and the two source
  transforms `wrapIfPartial` and `guardGlyphToUnicode`, whose regular expressions
  are encoded directly with JavaScript semantics. It also covers the compiler
  argument vector and the life cycle of one compile attempt. The attempt is an
  object whose event handlers (output chunks, the kill timer, `error`, `close`)
  update shared locals. A pure step function specifies them, and the model proves
  the attempt is answered exactly once and cleaned up in every event order.
- **The compiler warm-up** (`startLatexWarmup`): the same event model without the
  "already responded" flag, so an `error` followed by a `close` logs twice.
- **The token middlewares** (`tokenValidator`, `admintokenValidator`,
  `readverifyForgotToken`, `verifyForgotToken`): bearer-token extraction, the
  secret-key claim test, the role test, the claims copied into the body, and the
  single-use consumption of forgot tokens.
- **The Zod schemas** for users and roadmaps: a small schema language with
  required, optional and defaulted fields, enums, bounded numbers, string checks
  and `.partial()`. Lemmas state what a successful parse guarantees.
- **The roadmap controller**: create, list, get, update and delete over an
  in-memory `roadmaps` collection, including the owner check that leads to 403.
- **The profile controller**:
  - `resolveEmail`;
  - `getUser`;
  - `updateProfile`, with Firestore's deep `merge: true` write;
  - `uploadResume`, covering the PDF checks, the Cloudinary public id derived from
    the email, and the merged résumé record;
  - `getResumeSource`;
  - the dashboard computations: completeness, mastered skills, career score, skill
    progress, and the generated milestones and recommendations.

Some of the system's dependencies are parameters of the model:

| dependency | modelled as |
|---|---|
| clock | a `now` string |
| id Firestore assigns to a new document | `newId` |
| PASETO verification | a function from token to result |
| Cloudinary upload | a function from public id to the service's answer |
| `mkdtemp`, `writeFile`, `readFile` | their answers |
| environment variables | `Option<string>` values |

Zod's string refinements (email, URL, datetime) are predicates of an `Env`.

The code is modelled as written. Where the README of the repository or the
comments in the code describe something else, the model follows the code:

- The 408 reply comes from the `close` handler after the timer has killed the
  child. The timer itself sends nothing.
- Node's `'ascii'` decoding clears the high bit of each byte. The `%PDF` signature
  test therefore also accepts the bytes `A5 D0 C4 C6`.
- The guard block goes after the first line holding `\documentclass`. When that
  line is the last one and ends without a newline, the block is silently dropped.
- `updateProfile`'s "email in payload must match lookup email" branch can never
  fire. The parsed email is always the lookup email.
- Roadmap updates never carry `createdAt`: the schema strips it before the
  handler's own deletion would apply.
- One strip pass can leave a hazard line behind. `\s*` spans newlines, so
  removing a standalone `\input glyphtounicode` line can join an `\input` above
  it with a `glyphtounicode` below it, and the joined text matches again. In the
  same way, the second pass can remove a `\pdfgentounicode=1` line and join an
  `\input` with a `glyphtounicode` that the first pass had already passed over.

## Model

| member | source | states |
|---|---|---|
| Text.LeadingSpaces | src/controllers/compile.controller.js:60 | the count of leading whitespace characters: all of them are space and the next one is not |
| Text.TrailingSpaces | src/controllers/compile.controller.js:78 | the count of trailing whitespace characters: all of them are space and the one before is not |
| Text.TrimStart | src/controllers/compile.controller.js:60 | the result is a suffix of the input, what was dropped is blank, the result does not start with space, and it is empty exactly when the input is blank |
| Text.TrimEnd | src/controllers/compile.controller.js:78 | the result is a prefix of the input, what was dropped is blank, the result does not end in space, and it is empty exactly when the input is blank |
| Text.Trim | src/controllers/compile.controller.js:60 | empty exactly for a blank input; otherwise neither end is space |
| Text.NonSpace | src/controllers/compile.controller.js:78 | the non-space characters hold no space |
| Text.NonSpaceAppend | src/controllers/compile.controller.js:78 | taking the non-space characters distributes over concatenation |
| Text.NonSpaceOfBlank | src/controllers/compile.controller.js:60 | a blank string has no non-space characters |
| Text.TrimStartKeepsNonSpace | src/controllers/compile.controller.js:78 | removing leading space keeps every non-space character |
| Text.TrimEndKeepsNonSpace | src/controllers/compile.controller.js:78 | removing trailing space keeps every non-space character |
| Text.TrimKeepsNonSpace | src/controllers/compile.controller.js:78 | `trim()` removes only space |
| Text.SplitSpaces | src/controllers/compile.controller.js:78 | a split on `/\s+/` gives at least one piece |
| Text.SplitSpacesFrom | src/controllers/compile.controller.js:78 | the split from a given position gives at least one piece |
| Text.SplitPiecesHaveNoSpace | src/controllers/compile.controller.js:78 | no piece of a whitespace split contains space |
| Text.NonSpaceOfBlankPrefix | src/controllers/compile.controller.js:78 | a blank prefix contributes no non-space characters |
| Text.SplitKeepsNonSpace | src/controllers/compile.controller.js:78 | the pieces glued together are exactly the non-space characters |
| Text.SplitTrimmedHasNoEmptyPiece | src/controllers/compile.controller.js:78 | splitting a trimmed, non-blank string yields no empty piece |
| Text.SplitOn | src/middlewares/auth/tokenValidation.js:35 | `split(' ')` gives at least one piece |
| Text.SplitOnFrom | src/middlewares/auth/tokenValidation.js:35 | the split from a given position gives at least one piece |
| Text.SplitOnSkipsRun | src/middlewares/auth/tokenValidation.js:35 | a run without the separator joins the current piece whole |
| Text.JoinSplitOn | src/middlewares/auth/tokenValidation.js:35 | joining the pieces with the separator restores the input, and no piece holds the separator |
| Text.LowerChar | src/controllers/profile.controller.js:274 | upper-case ASCII letters map to lower case and every other character is unchanged |
| Text.Lower | src/controllers/profile.controller.js:274 | `toLowerCase()` keeps the length and maps each character |
| Text.ContainsSelf | src/controllers/profile.controller.js:175 | every string includes itself |
| Text.ContainsInfix | src/controllers/profile.controller.js:175 | a string included in an infix is included in the whole |
| Text.IndexOf | src/controllers/compile.controller.js:64 | `indexOf` returns the first occurrence at or after `from`, and none means there is no occurrence |
| Text.IndexOfChar | src/controllers/compile.controller.js:64 | the first position of a character at or after `from`, or proof that there is none |
| Bytes.Tail | src/utils/latexWarmup.js:40 | the last `n` bytes, or all of them when there are fewer |
| Bytes.TailOfShort | src/utils/latexWarmup.js:40 | a buffer that fits is kept whole |
| Bytes.TailOfAppend | src/utils/latexWarmup.js:40 | the tail of a concatenation can be computed from the tail of the first part |
| Bytes.AsciiText | src/controllers/compile.controller.js:142 | `toString('ascii')` keeps the length and clears the high bit of every byte |
| Bytes.PdfMagicBytes | src/controllers/compile.controller.js:142-143 | the signature test passes exactly when the first four bytes, modulo 128, are `%PDF` |
| Bytes.PdfHeaderPasses | src/controllers/compile.controller.js:142-143 | every buffer starting with the bytes of `%PDF` passes |
| Bytes.HighBitHeaderPasses | src/controllers/profile.controller.js:260 | bytes A5 D0 C4 C6 pass the signature test too |
| JsonValue.Or | src/controllers/roadmap.controller.js:20-22 | `x \|\| y` is `x` when truthy, else `y` |
| JsonValue.SetField | src/controllers/roadmap.controller.js:18-25 | the field is set, or is absent for an undefined value, and no other field changes |
| JsonValue.WithId | src/controllers/roadmap.controller.js:56 | `{ id, ...data }` has an id, the document id unless the data has its own, and keeps every stored field |
| SourcePrep.PreambleDeclaresClass | src/controllers/compile.controller.js:12 | the wrapper text declares a document class |
| SourcePrep.WrapIfPartial | src/controllers/compile.controller.js:10-13 | a source with a document class is returned as is, any other source is wrapped, and the result always declares a class |
| SourcePrep.WrapIdempotent | src/controllers/compile.controller.js:10-13 | wrapping twice is wrapping once |
| SourcePrep.SkipSpaces | src/controllers/compile.controller.js:17-18 | `\s*` stops at the first non-space character |
| SourcePrep.GlyphHeadEnd | src/controllers/compile.controller.js:17 | a match of the glyphtounicode input head ends after its start |
| SourcePrep.PdfGenHeadEnd | src/controllers/compile.controller.js:18 | a match of the pdfgentounicode head ends after its start |
| SourcePrep.HeadEnd | src/controllers/compile.controller.js:23-24 | a hazard head match ends after its start |
| SourcePrep.LastNewline | src/controllers/compile.controller.js:23-24 | the last newline in a range, or proof that there is none |
| SourcePrep.LineEnd | src/controllers/compile.controller.js:23-24 | `\s*(?=\n\|$)` ends at a newline or at the end over space only; it fails exactly when other text follows on the line |
| SourcePrep.MatchEnd | src/controllers/compile.controller.js:23-24 | a strip match ends after its start, past the newline that began it |
| SourcePrep.StripWithoutMatch | src/controllers/compile.controller.js:23-24 | where no match starts the global replace copies the text |
| SourcePrep.StripShortens | src/controllers/compile.controller.js:23-24 | stripping never lengthens the text |
| SourcePrep.TrailingTextIsKept | src/controllers/compile.controller.js:17-24 | a hazard line with text after it on the same line is detected but not stripped |
| SourcePrep.StripStep | src/controllers/compile.controller.js:23-24 | where no match starts, the global replace copies the character and goes on with the next one |
| SourcePrep.SliceCons | src/controllers/compile.controller.js:23-24 | a copied character followed by the rest of a slice is the whole slice |
| SourcePrep.NoMatchBetweenOfAll | src/controllers/compile.controller.js:23-24 | no match at any position of a range is the same as no match at each position in turn |
| SourcePrep.NoMatchBetweenJoin | src/controllers/compile.controller.js:23-24 | two adjacent match-free ranges form one match-free range |
| SourcePrep.StripCopiesPrefix | src/controllers/compile.controller.js:23-24 | the global replace copies the text up to the first match unchanged |
| SourcePrep.StripMatchStep | src/controllers/compile.controller.js:23-24 | a match is replaced by the newline that began it (nothing at the very start) and the scan resumes at its end |
| SourcePrep.NextMatchReplaced | src/controllers/compile.controller.js:23-24 | the replace copies up to the next match, keeps only the match's leading newline, and resumes after the match |
| SourcePrep.JoinPieces | src/controllers/compile.controller.js:23-24 | the kept head, the leading newline and the kept tail of a one-match strip make up the result, which is shorter than the input |
| SourcePrep.StandaloneLineRemoved | src/controllers/compile.controller.js:23-24 | a single standalone hazard line is removed: the text before it and from the end of its line on is kept, and the result is shorter |
| SourcePrep.FoldedAt | src/controllers/compile.controller.js:23 | a literal without capitals found at a position also matches there under the `i` flag |
| SourcePrep.ExactAt | src/controllers/compile.controller.js:24 | a literal found character by character at a position occurs there |
| SourcePrep.InputCmdIsLower | src/controllers/compile.controller.js:23 | `\input` has no capitals |
| SourcePrep.GlyphNameIsLower | src/controllers/compile.controller.js:23 | `glyphtounicode` has no capitals |
| SourcePrep.NoMatchOffLineStarts | src/controllers/compile.controller.js:23-24 | no match starts away from the start of the text and from newlines |
| SourcePrep.NoBackslashNoMatch | src/controllers/compile.controller.js:23-24 | a line that opens with neither a space nor a backslash holds no hazard |
| SourcePrep.InputThenBackslash | src/controllers/compile.controller.js:23 | an opening `\input` line followed by a line that starts with a backslash is not a glyphtounicode input |
| SourcePrep.InputLineMatch | src/controllers/compile.controller.js:23 | a standalone `\input glyphtounicode` line after a newline is a match up to the newline that closes it |
| SourcePrep.PdfGenLineMatch | src/controllers/compile.controller.js:24 | a standalone `\pdfgentounicode=1` line after a newline is a match up to the newline that closes it |
| SourcePrep.JoinedInputMatches | src/controllers/compile.controller.js:17-23 | `\input`, a blank line and `glyphtounicode` are detected and matched as one glyphtounicode input |
| SourcePrep.InputCmdHasNoNewline | src/controllers/compile.controller.js:23 | `\input` holds no newline |
| SourcePrep.GlyphNameHasNoNewline | src/controllers/compile.controller.js:23 | `glyphtounicode` holds no newline |
| SourcePrep.NewlineFreeHead | src/controllers/compile.controller.js:23-24 | an opening `\input` holds no newline |
| SourcePrep.NewlineFreeTail | src/controllers/compile.controller.js:23-24 | a closing `glyphtounicode` line holds no newline after its first |
| SourcePrep.JoinAroundNewline | src/controllers/compile.controller.js:23-24 | an `\input` head, a newline and a newline-led `glyphtounicode` tail make up the joined text |
| SourcePrep.StripCanJoinLines | src/controllers/compile.controller.js:23 | on any text laid out as `\input`, a standalone `\input glyphtounicode` line and `glyphtounicode`, one pass removes the middle line and the result matches the pattern again |
| SourcePrep.SplitLineMatch | src/controllers/compile.controller.js:23 | in that layout the middle line is a match |
| SourcePrep.SplitNoMatchBefore | src/controllers/compile.controller.js:23 | in that layout no match starts before the middle line |
| SourcePrep.SplitNoMatchAfter | src/controllers/compile.controller.js:23 | in that layout no match starts after the middle line |
| SourcePrep.SplitInputPieces | src/controllers/compile.controller.js:23 | the example text opens with `\input` and closes with a newline and `glyphtounicode` |
| SourcePrep.SplitInputLayout | src/controllers/compile.controller.js:23 | the example text has that layout |
| SourcePrep.OnePassCanLeaveMatch | src/controllers/compile.controller.js:23 | for the example, the stripped text still matches the strip pattern at its start, so one global replace does not remove every match |
| SourcePrep.NewlineFreePdfGen | src/controllers/compile.controller.js:24 | a `\pdfgentounicode=1` holds no newline |
| SourcePrep.TwoPassNoGlyphBefore | src/controllers/compile.controller.js:23 | in the two-pass layout no glyphtounicode match starts in the opening line |
| SourcePrep.TwoPassNoGlyphOnPdfGenLine | src/controllers/compile.controller.js:23 | in the two-pass layout no glyphtounicode match starts on the `\pdfgentounicode=1` line |
| SourcePrep.TwoPassNoGlyphAfter | src/controllers/compile.controller.js:23 | in the two-pass layout no glyphtounicode match starts on the closing line |
| SourcePrep.TwoPassNoGlyphMatch | src/controllers/compile.controller.js:23 | the glyphtounicode pass leaves a text with that layout unchanged |
| SourcePrep.TwoPassPdfGenLine | src/controllers/compile.controller.js:24 | in the two-pass layout the `\pdfgentounicode=1` line is a match |
| SourcePrep.TwoPassNoPdfGenBefore | src/controllers/compile.controller.js:24 | in the two-pass layout no pdfgentounicode match starts in the opening line |
| SourcePrep.TwoPassNoPdfGenAfter | src/controllers/compile.controller.js:24 | in the two-pass layout no pdfgentounicode match starts on the closing line |
| SourcePrep.StripHazardsCanLeaveGlyphInput | src/controllers/compile.controller.js:17-24 | on any text laid out as `\input`, a standalone `\pdfgentounicode=1` line and `glyphtounicode`, both passes give the joined text, and it is still detected as a glyphtounicode input |
| SourcePrep.TwoPassInputLayout | src/controllers/compile.controller.js:23-24 | the two-pass example text has that layout |
| SourcePrep.TwoPassesCanLeaveGlyphInput | src/controllers/compile.controller.js:17-24 | for the two-pass example, the doubly stripped text is still detected as a glyphtounicode input |
| SourcePrep.ClassLineEnd | src/controllers/compile.controller.js:33 | the position just after the newline ending the first `\documentclass` line |
| SourcePrep.PlaceGuardBlock | src/controllers/compile.controller.js:32-36 | the block goes after the class line, on top without a class, and nowhere when the class line has no newline |
| SourcePrep.GuardGlyphToUnicode | src/controllers/compile.controller.js:15-38 | an already guarded source, or one without either hazard line, is unchanged; otherwise the glyphtounicode pass runs, then the pdfgentounicode pass, and the block is placed in the result |
| SourcePrep.BlockHoldsGuardToken | src/controllers/compile.controller.js:26-30 | the guard block contains `\ifdefined\pdfgentounicode` |
| SourcePrep.InsertedBlockIsGuarded | src/controllers/compile.controller.js:26-35 | any text with the guard block inserted holds the guard |
| SourcePrep.PlacedBlockIsGuarded | src/controllers/compile.controller.js:32-36 | after the block is placed, after the `\documentclass` line or in front, the text holds the guard |
| SourcePrep.GuardIdempotentOnceGuarded | src/controllers/compile.controller.js:15-38 | once the block is in, the output is guarded and guarding again changes nothing |
| SourcePrep.BlockDroppedOnLastClassLine | src/controllers/compile.controller.js:32-33 | with the class on the last line without a newline, the hazards are stripped and no block is inserted |
| SourcePrep.PrepareSource | src/controllers/compile.controller.js:72 | the text written to `main.tex` always declares a document class |
| Compile.OrDefault | src/controllers/compile.controller.js:75 | a set, non-empty value is used, otherwise the default |
| Compile.Admit | src/controllers/compile.controller.js:53-67 | 415 exactly for a non-string body, 422 exactly for a blank one, 400 exactly for one holding NUL, and admitted exactly otherwise |
| Compile.TimeoutMs | src/controllers/compile.controller.js:7 | 15000 ms when `LATEX_TIMEOUT_MS` is unset |
| Compile.FlagArgsAreWords | src/controllers/compile.controller.js:77-79 | the flags become non-empty words without space that hold exactly the variable's non-space characters |
| Compile.BlankFlagsPassEmptyArgument | src/controllers/compile.controller.js:77-79 | a set but blank `TECTONIC_FLAGS` passes one empty argument |
| Compile.BuildArgs | src/controllers/compile.controller.js:76-80 | the argument vector is `-o <dir>`, then the flags, then `main.tex` |
| Compile.ErrorReply | src/controllers/compile.controller.js:114-124 | always 500: "not installed" for ENOENT, otherwise "Failed to start compiler" with the error text |
| Compile.LogTail | src/controllers/compile.controller.js:135 | all of stderr up to 4096 bytes, else exactly its last 4096 |
| Compile.CloseReply | src/controllers/compile.controller.js:126-160 | 408 exactly when timed out; 400 with the log tail exactly for a non-zero code or an invalid PDF; 500 exactly when reading fails; 200 exactly for a clean exit with a valid PDF |
| Compile.CleanExitWithBadPdfIsCompileFailure | src/controllers/compile.controller.js:134-147 | a clean exit with an invalid PDF gets the same status and log as a failed compile |
| Compile.StartedSound | src/controllers/compile.controller.js:87-94 | the state just after the spawn satisfies the attempt invariant |
| Compile.StepSound | src/controllers/compile.controller.js:96-160 | every handler keeps the invariant and never replaces a sent reply; a finishing event sends the reply if none was sent |
| Compile.RunSound | src/controllers/compile.controller.js:96-160 | every event sequence keeps the invariant and a sent reply stays |
| Compile.AnsweredOnceAndCleaned | src/controllers/compile.controller.js:96-109 | after any `error` or `close`, exactly one reply was sent, the timer is cleared and the directory removed |
| Compile.FirstFinisherDecides | src/controllers/compile.controller.js:96-109 | the first finishing event's reply is the one sent |
| Compile.TimeoutReplyMeansKilled | src/controllers/compile.controller.js:91-94 | a 408 reply comes with the child killed |
| Compile.CompileAttempt.constructor | src/controllers/compile.controller.js:81-94 | the attempt starts in the initial state with its directory, source, command, arguments and timeout |
| Compile.CompileAttempt.OnStdout | src/controllers/compile.controller.js:111 | appends to stdout as the step function says |
| Compile.CompileAttempt.OnStderr | src/controllers/compile.controller.js:112 | appends to stderr as the step function says |
| Compile.CompileAttempt.OnTimer | src/controllers/compile.controller.js:91-94 | an armed timer marks the attempt timed out and kills the child |
| Compile.CompileAttempt.Finalize | src/controllers/compile.controller.js:96-109 | the first call sends; every call clears the timer and removes the directory |
| Compile.CompileAttempt.OnError | src/controllers/compile.controller.js:114-124 | finalizes with the error reply |
| Compile.CompileAttempt.OnClose | src/controllers/compile.controller.js:126-160 | finalizes with the close reply |
| Compile.CompileLatex | src/controllers/compile.controller.js:51-85 | refused requests get their reply with no directory; a failing mkdtemp or writeFile gets the outer 500, leaving the directory after a failed write; otherwise a started attempt on the prepared source |
| Warmup.WarmSourceIsComplete | src/utils/latexWarmup.js:24 | the warm-up document declares a class, so wrapping leaves it alone |
| Warmup.EnabledUnlessSwitchedOff | src/utils/latexWarmup.js:17-19 | only `0` and `false` switch the warm-up off |
| Warmup.CloseReport | src/utils/latexWarmup.js:36-49 | timed out, complete for exit 0, otherwise the code with both 1024-byte tails |
| Warmup.ReportsCountFinishers | src/utils/latexWarmup.js:36-54 | each finishing event writes exactly one report and earlier reports stay |
| Warmup.ErrorThenCloseLogsTwice | src/utils/latexWarmup.js:36-54 | an error followed by a close logs both |
| Warmup.NoKillAfterFinish | src/utils/latexWarmup.js:35-37 | after a finishing event a late timer neither marks a timeout nor kills, and the directory stays removed |
| Warmup.WarmupRun.constructor | src/utils/latexWarmup.js:26-35 | the warm-up starts with arguments `-o <dir> warm.tex`, empty buffers and an armed timer |
| Warmup.WarmupRun.OnStdout | src/utils/latexWarmup.js:31 | appends to the output buffer |
| Warmup.WarmupRun.OnStderr | src/utils/latexWarmup.js:32 | appends to the error buffer |
| Warmup.WarmupRun.OnTimer | src/utils/latexWarmup.js:35 | an armed timer marks the run timed out and kills the child |
| Warmup.WarmupRun.OnClose | src/utils/latexWarmup.js:36-49 | clears the timer, logs the close report and removes the directory |
| Warmup.WarmupRun.OnError | src/utils/latexWarmup.js:50-54 | clears the timer, logs the failure and removes the directory |
| Warmup.StartLatexWarmup | src/utils/latexWarmup.js:16-55 | nothing when switched off; logged failures for mkdtemp and writeFile, with the directory left after a failed write; otherwise a started run |
| TokenValidation.BearerToken | src/middlewares/auth/tokenValidation.js:34-37 | a token is the non-empty second space-separated word of the header |
| TokenValidation.BearerTokenOf | src/middlewares/auth/tokenValidation.js:35 | `<scheme> <token>` yields the token |
| TokenValidation.NoSpaceNoToken | src/middlewares/auth/tokenValidation.js:35-37 | a header without a space yields no token |
| TokenValidation.UserClaims | src/middlewares/auth/tokenValidation.js:51-55 | the body gets userid, email, userId from `id`, name and role, and keeps every other field |
| TokenValidation.AdminClaims | src/middlewares/auth/tokenValidation.js:94-97 | the body gets email, userId, name and role, and keeps every other field |
| TokenValidation.ForgotClaims | src/middlewares/auth/tokenValidation.js:153-154 | the body gets email and name, and keeps every other field |
| TokenValidation.Req.constructor | src/middlewares/auth/tokenValidation.js:34 | a request holds its header and body |
| TokenValidation.TokenStore.constructor | src/middlewares/auth/tokenValidation.js:4 | a token store holds its documents |
| TokenValidation.TokenValidator | src/middlewares/auth/tokenValidation.js:32-70 | 401 for a missing token or a failed verification; `next` exactly when the secret claim matches, with the claims copied into the body |
| TokenValidation.AdminTokenValidator | src/middlewares/auth/tokenValidation.js:73-117 | as above, and `next` only for role `admin`; a non-admin still gets the claims written before the refusal |
| TokenValidation.ReadVerifyForgotToken | src/middlewares/auth/tokenValidation.js:119-169 | a store lookup before verification: 401 for no token, a store fault or an unknown token, then the forgot-secret test |
| TokenValidation.VerifyForgotToken | src/middlewares/auth/tokenValidation.js:172-215 | every refusal is 401 and leaves the store alone; `next` exactly for a verified forgot token that is recorded, and one record of it is deleted; the body is unchanged on the two refusals before verification succeeds, `req.body || {}` on the three after, and the claims are copied on `next` |
| TokenValidation.UseRemovesOneHolder | src/middlewares/auth/tokenValidation.js:195-200 | deleting a holder document removes exactly that holder |
| TokenValidation.ForgotTokenIsSingleUse | src/middlewares/auth/tokenValidation.js:188-202 | a token recorded at most once never lets two requests through |
| Zod.Parse | src/Schema/userSchema.js:101-121 | a present value that parses has an output; an object's output only holds declared keys |
| Zod.ParseItems | src/Schema/userSchema.js:113-115 | a parsed array keeps its length |
| Zod.ParseFields | src/Schema/userSchema.js:101-121 | unknown keys are dropped from the output |
| Zod.Partial | src/controllers/profile.controller.js:13 | `.partial()` makes every field optional and changes nothing else |
| Zod.RequiredRejectsAbsent | src/Schema/userSchema.js:102-104 | a required schema rejects a missing value |
| Zod.FieldOutcome | src/Schema/userSchema.js:101-121 | in an accepted object each declared field parsed, and the output holds exactly its result |
| Zod.ObjectField | src/Schema/userSchema.js:101-121 | the same, for an object schema parsed from an object value |
| Zod.FieldFailureRejects | src/Schema/userSchema.js:101-121 | one failing field rejects the object |
| Zod.MissingRequiredRejects | src/Schema/userSchema.js:102-104 | a missing required field rejects the fields |
| Zod.ObjectMissingRequired | src/Schema/userSchema.js:102-104 | a missing required field rejects the object |
| Zod.DefaultApplies | src/Schema/roadmapSchema.js:24 | a missing defaulted value parses as the default would |
| Zod.NumberWithinBounds | src/Schema/roadmapSchema.js:17 | an accepted bounded number lies within its bounds |
| Zod.EnumWithinOptions | src/Schema/roadmapSchema.js:16 | an accepted enum value is one of the options |
| Zod.CheckedStringPasses | src/Schema/userSchema.js:103 | an accepted checked string passes its check |
| Zod.PartialFieldsAcceptMore | src/Schema/roadmapSchema.js:35 | partial fields accept whatever the full fields accept |
| Zod.PartialAcceptsMore | src/Schema/roadmapSchema.js:35 | a partial schema accepts every object the full schema accepts |
| Zod.PartialFieldsAddNothing | src/Schema/roadmapSchema.js:35 | partial fields add no key the input lacks |
| Zod.PartialAppliesNoDefault | src/Schema/roadmapSchema.js:35 | a partial parse applies no default |
| Zod.PartialFieldsAcceptEmpty | src/Schema/roadmapSchema.js:35 | partial fields accept the empty object |
| Zod.PartialAcceptsEmpty | src/Schema/roadmapSchema.js:35 | a partial schema accepts `{}` |
| RoadmapSchema.RoadmapRequiresFields | src/Schema/roadmapSchema.js:21-33 | a roadmap without a title, total duration or start date is rejected |
| RoadmapSchema.PercentField | src/Schema/roadmapSchema.js:17 | a defaulted percentage is always present, in [0, 100], and 0 when missing |
| RoadmapSchema.StatusField | src/Schema/roadmapSchema.js:8 | a status is always present, one of the three, and `pending` when missing |
| RoadmapSchema.RoadmapCompletionRate | src/Schema/roadmapSchema.js:24 | a parsed roadmap's completion rate is in [0, 100], and 0 when the input lacked it |
| RoadmapSchema.RoadmapProgress | src/Schema/roadmapSchema.js:26 | a parsed roadmap's progress is in [0, 100], and 0 when the input lacked it |
| RoadmapSchema.RoadmapPhases | src/Schema/roadmapSchema.js:28 | a parsed roadmap's phases are a list, `[]` when the input lacked it |
| RoadmapSchema.ListField | src/Schema/roadmapSchema.js:18 | a list field defaulted to `[]` is always present in the output as a list, and `[]` when absent from the input |
| Zod.DefaultedArray | src/Schema/roadmapSchema.js:28 | an accepted value through an array defaulted to `[]` is an array, and `[]` when absent |
| RoadmapSchema.RoadmapEmailChecked | src/Schema/roadmapSchema.js:30 | a present owner email passes the email check |
| RoadmapSchema.PhaseRequiresFields | src/Schema/roadmapSchema.js:12-19 | a phase needs an id, a title and a duration |
| RoadmapSchema.PhaseStatus | src/Schema/roadmapSchema.js:16 | a parsed phase's status is one of the three statuses, `pending` when absent |
| RoadmapSchema.PhaseProgress | src/Schema/roadmapSchema.js:17 | a parsed phase's progress is in [0, 100], 0 when absent |
| RoadmapSchema.PhaseMilestones | src/Schema/roadmapSchema.js:18 | a parsed phase's milestones are a list, `[]` when absent |
| RoadmapSchema.MilestoneType | src/Schema/roadmapSchema.js:6 | a parsed milestone's type is among course, project and certification, `course` when absent |
| RoadmapSchema.MilestoneStatus | src/Schema/roadmapSchema.js:8 | a parsed milestone's status is one of the three statuses, `pending` when absent |
| RoadmapSchema.UpdateIsPartial | src/Schema/roadmapSchema.js:35 | every update field is optional, `{}` passes, every full roadmap passes, and no key is added |
| RoadmapSchema.NoCreatedAt | src/Schema/roadmapSchema.js:21-35 | neither a parsed roadmap nor a parsed update carries `createdAt` |
| UserSchema.UserRequiresFields | src/Schema/userSchema.js:102-104 | a profile without a name, email or phone is rejected |
| UserSchema.UserEmailChecked | src/Schema/userSchema.js:103 | a parsed profile has an email that passes the email check |
| UserSchema.FlagField | src/Schema/userSchema.js:106 | a flag defaulted to true is always present in the output, and true when absent from the input |
| UserSchema.TimeField | src/Schema/userSchema.js:107 | a time defaulted to the clock is always present, passes the datetime check, and is the clock's time when absent |
| UserSchema.UserIsActiveDefault | src/Schema/userSchema.js:106 | a parsed profile has an activity flag, true when missing |
| UserSchema.UserCreatedAtDefault | src/Schema/userSchema.js:107 | a parsed profile has a valid datetime, the clock's time when missing |
| UserSchema.UserRequiresFieldsContra | src/Schema/userSchema.js:102-104 | a parsed profile had all three required fields |
| UserSchema.OtherFieldsOptional | src/Schema/userSchema.js:101-121 | a field is optional exactly when it is neither required nor defaulted |
| UserSchema.OptionalEnumField | src/Schema/userSchema.js:46 | a present optional enum field is one of its options |
| UserSchema.OptionalUrlField | src/Schema/userSchema.js:28-31 | a present optional URL field passes the URL check |
| UserSchema.PrioritiesAreEnumerated | src/Schema/userSchema.js:46-76 | suggestion and milestone priorities are low, medium or high |
| UserSchema.TypesAreEnumerated | src/Schema/userSchema.js:69-81 | activity and recommendation types come from their lists |
| UserSchema.LinksAreUrls | src/Schema/userSchema.js:28-58 | social links and the résumé url pass the URL check |
| Roadmap.OwnerIsNeverForbidden | src/controllers/roadmap.controller.js:57-59 | no 403 without a requester email, for a record without an owner, or for the owner's own email |
| Roadmap.CreatePayload | src/controllers/roadmap.controller.js:18-25 | `email`, `userId` and `ownerName` (from the body's `name`) are the body's value when it is truthy and otherwise the parsed data's, absent when the data lacks it; both timestamps are `now`; every other field is the parsed data's |
| Roadmap.RoadmapStore.constructor | src/controllers/roadmap.controller.js:5 | an empty collection |
| Roadmap.RoadmapStore.Create | src/controllers/roadmap.controller.js:11-33 | 400 for an invalid body with the store unchanged; otherwise exactly one new document, returned with its id |
| Roadmap.RoadmapStore.List | src/controllers/roadmap.controller.js:35-47 | with a requester email exactly that owner's roadmaps, otherwise all, each with its id |
| Roadmap.RoadmapStore.Get | src/controllers/roadmap.controller.js:49-65 | 400 exactly without an id, 404 exactly for a missing document, 403 exactly for another owner's, else the document |
| Roadmap.RoadmapStore.Update | src/controllers/roadmap.controller.js:67-97 | 400 for no id or an invalid update before the store is read, then 404 and 403 as for a read; otherwise only that document gets the update and a fresh `updatedAt` |
| Roadmap.RoadmapStore.Delete | src/controllers/roadmap.controller.js:99-118 | 400, 404 and 403 as for a read with the store unchanged; otherwise exactly that document is removed |
| Roadmap.UpdateKeepsCreatedAt | src/controllers/roadmap.controller.js:77-90 | an update keeps the stored creation time, sets `updatedAt`, and leaves every field it lacks untouched |
| Roadmap.DeleteThenGet | src/controllers/roadmap.controller.js:99-118 | after a successful delete the roadmap reads as missing |
| DocMerge.Merge | src/controllers/profile.controller.js:93 | nested objects merge key by key, other values replace, and keys the update lacks keep their values |
| DocMerge.MergeDoc | src/controllers/profile.controller.js:93 | the merged document has the union of keys, keeps stored keys the update lacks, and takes non-object update values |
| DocMerge.MergeSelf | src/controllers/profile.controller.js:93 | merging a value onto itself changes nothing |
| DocMerge.MergeIdempotent | src/controllers/profile.controller.js:93 | writing the same update twice equals writing it once |
| DocMerge.MergeEmpty | src/controllers/profile.controller.js:93 | an empty update leaves the document as it is |
| DocMerge.MergeKeepsNested | src/controllers/profile.controller.js:323 | a nested update never removes a key of the stored nested object |
| EmailKey.SlugFrom | src/controllers/profile.controller.js:275 | the replacement yields only letters, digits and `_`, never `__` |
| EmailKey.CollapseKeeps | src/controllers/profile.controller.js:276 | collapsing `_` runs is a no-op on the slug's output |
| EmailKey.DropLeading | src/controllers/profile.controller.js:277 | a suffix that does not start with `_` |
| EmailKey.DropTrailing | src/controllers/profile.controller.js:277 | a prefix that does not end with `_` |
| EmailKey.Take120 | src/controllers/profile.controller.js:278 | a prefix of at most 120 characters, the whole string when it fits |
| EmailKey.InfixKeepsShape | src/controllers/profile.controller.js:275-278 | the key alphabet and the absence of `__` survive taking an infix |
| EmailKey.KeyShape | src/controllers/profile.controller.js:273-278 | the key uses only lower-case letters, digits and `_`, has no `__`, does not start with `_`, and has at most 120 characters |
| EmailKey.KeyOfSlug | src/controllers/profile.controller.js:273-278 | the second replacement changes nothing, so the key is the stripped slug cut to 120 characters |
| EmailKey.StripShape | src/controllers/profile.controller.js:277 | stripping keeps the alphabet and the absence of `__`, and leaves no leading `_` |
| EmailKey.Take120Shape | src/controllers/profile.controller.js:278 | the cut to 120 characters keeps the alphabet, the absence of `__` and the first character |
| EmailKey.StripKeepsKeyChars | src/controllers/profile.controller.js:277 | stripping keeps every letter and digit |
| EmailKey.KeyCharsOfPrefix | src/controllers/profile.controller.js:278 | the letters and digits of a prefix are a prefix of the letters and digits |
| EmailKey.KeyChars | src/controllers/profile.controller.js:275 | the letters and digits of a string are key characters |
| EmailKey.KeyCharsAppend | src/controllers/profile.controller.js:275 | taking letters and digits distributes over concatenation |
| EmailKey.SlugKeepsKeyChars | src/controllers/profile.controller.js:275 | the replacement keeps every letter and digit in order |
| EmailKey.DropLeadingKeepsKeyChars | src/controllers/profile.controller.js:277 | stripping leading `_` keeps every letter and digit |
| EmailKey.DropTrailingKeepsKeyChars | src/controllers/profile.controller.js:277 | stripping trailing `_` keeps every letter and digit |
| EmailKey.KeyKeepsLettersAndDigits | src/controllers/profile.controller.js:273-278 | the key keeps a prefix of the email's lower-cased letters and digits, and all of them when it fits in 120 characters |
| EmailKey.LowerIdempotent | src/controllers/profile.controller.js:274 | lower-casing twice is lower-casing once |
| EmailKey.KeyIgnoresCase | src/controllers/profile.controller.js:273-278 | emails differing only in ASCII case get the same key |
| EmailKey.SlugOfKeyRun | src/controllers/profile.controller.js:275 | a run of letters and digits passes through unchanged |
| EmailKey.LowerOfLowerCase | src/controllers/profile.controller.js:274 | a string without upper-case letters is unchanged by lower-casing |
| EmailKey.StripOfUnderscoreFree | src/controllers/profile.controller.js:277 | a string with no `_` at either end is unchanged by stripping |
| EmailKey.SlugOfDotB | src/controllers/profile.controller.js:275 | `.b` becomes `_b` |
| EmailKey.TruncatedKeyCanEndInUnderscore | src/controllers/profile.controller.js:277-278 | the cut to 120 comes after stripping, so 119 letters followed by `.b` give a key ending in `_` |
| Profile.TokenEmail | src/controllers/profile.controller.js:30-38 | no email without a token or when verification fails; otherwise the payload's email claim |
| Profile.ResolveEmail | src/controllers/profile.controller.js:24-39 | the first truthy email among user, body, query and params, else the token's email |
| Profile.TokenOnlyAsFallback | src/controllers/profile.controller.js:29 | when a request field gives an email, the token is never consulted and the result is truthy |
| Profile.SecretKeyNotConsulted | src/controllers/profile.controller.js:34-35 | two verifiers that agree on validity and on the email claim give the same email, so the `secret_key` claim never matters |
| Profile.CheckUpload | src/controllers/profile.controller.js:252-262 | 400 for no email, no file, a non-PDF type, or no `%PDF` signature, in that order; a pass exactly otherwise |
| Profile.PdfUploadPasses | src/controllers/profile.controller.js:257-262 | a PDF upload passes exactly when its first four bytes read `%PDF` with the high bit cleared |
| Profile.StampedUpdate | src/controllers/profile.controller.js:79-83 | the parsed payload without `createdAt`, with `updatedAt` set, and every other key kept |
| Profile.ParsedEmailIsLookupEmail | src/controllers/profile.controller.js:70-78 | a parsed payload's email equals the body's email, so the mismatch refusal never fires |
| Profile.UpdateKeepsCreatedAt | src/controllers/profile.controller.js:79-93 | a stored creation time survives every profile update, and the update's other keys are written |
| Profile.ResumeRecord | src/controllers/profile.controller.js:311-320 | the file name, time, url and public id, plus the LaTeX source exactly when the body has a non-blank string |
| Profile.UploadKeepsEarlierLatex | src/controllers/profile.controller.js:318-323 | an upload without LaTeX keeps the LaTeX stored with an earlier résumé |
| Profile.UserStore.constructor | src/controllers/profile.controller.js:11 | an empty collection |
| Profile.UserStore.GetUser | src/controllers/profile.controller.js:41-61 | 400 exactly without an email, 404 exactly when no user has it, and otherwise always 200 with a matching user and its id |
| Profile.CheckUpdate | src/controllers/profile.controller.js:65-78 | the three 400 refusals, each exactly when it applies, and no refusal exactly when the email is present, the payload parses and no mismatch is seen |
| Profile.UserStore.UpdateProfile | src/controllers/profile.controller.js:63-101 | 400 for no email, an invalid payload or a mismatch (each exactly when it applies), 404 exactly when no user matches; a refusal changes nothing; otherwise always 200, with one matching document getting the stamped update merged in |
| Profile.UserStore.UploadResume | src/controllers/profile.controller.js:250-330 | the upload checks first, then 404, then a 500 for a non-string email, then the upload under the derived public id: a missing answer, an empty url or a 0-byte answer gives exactly the 500 "Failed to store resume on Cloudinary", and a complete answer always gives 200 with the résumé record merged into the user; a failure changes nothing |
| Profile.UserStore.ResumeSource | src/controllers/profile.controller.js:334-357 | 400 exactly without an email, 404 exactly without a user; with a user, the stored non-blank LaTeX source as text or 404 "No LaTeX source stored", the text when every matching user has a source and the 404 when none has |
| ProfileDashboard.FilledCount | src/controllers/profile.controller.js:158-160 | at most one point per field |
| ProfileDashboard.FilledCountStep | src/controllers/profile.controller.js:158-160 | counting one more field adds one exactly when that field is filled |
| ProfileDashboard.ProfileCompleteness | src/controllers/profile.controller.js:151-168 | the loop's score equals the completeness formula |
| ProfileDashboard.ScoreBounds | src/controllers/profile.controller.js:151-168 | ten points per field plus a bonus in steps of 5, capped at 100, is a multiple of 5 no larger than 100; reaching the cap needs five fields |
| ProfileDashboard.CompletenessBounds | src/controllers/profile.controller.js:151-168 | completeness is at most 100 and a multiple of 5; 100 needs five filled text fields; an empty profile scores 0 |
| ProfileDashboard.BlankFieldScoresNothing | src/controllers/profile.controller.js:159 | a whitespace-only field scores like an absent one |
| ProfileDashboard.Mastered | src/controllers/profile.controller.js:120 | at most the number of skills; 0 exactly when none has level ≥ 80; all exactly when all do |
| ProfileDashboard.CareerScore | src/controllers/profile.controller.js:122 | the score is at most 100 |
| ProfileDashboard.CareerScoreRounds | src/controllers/profile.controller.js:122 | the integer score equals `Math.min(100, Math.round(10·mastered + completeness·0.5 + points))` |
| ProfileDashboard.SkillProgress | src/controllers/profile.controller.js:137-141 | one entry per skill with its name and level; a target exactly when there is a level, never above 100, 15 above levels up to 85, else 100 |
| ProfileDashboard.ScanFoundMeaning | src/controllers/profile.controller.js:175-223 | `some` finds a match exactly when a skill matches with only named skills before it |
| ProfileDashboard.ScanThrewMeaning | src/controllers/profile.controller.js:175-223 | `some` throws exactly when a nameless skill comes before any match |
| ProfileDashboard.ScanMeaning | src/controllers/profile.controller.js:175-223 | `some` finds a match exactly when a skill matches with only named skills before it, and throws exactly when a nameless skill comes before any match |
| ProfileDashboard.FindAfterScan | src/controllers/profile.controller.js:179-189 | after a successful scan, `find` meets a mentioning skill no later than the match, so it does not throw |
| ProfileDashboard.GenerateMilestones | src/controllers/profile.controller.js:170-204 | the pushed and cut list equals the milestone specification |
| ProfileDashboard.MilestonesUncut | src/controllers/profile.controller.js:170-204 | the cut to three removes nothing: the list is the React entry, the JavaScript entry and the portfolio entry |
| ProfileDashboard.MilestonesOrder | src/controllers/profile.controller.js:170-204 | no list exactly when a scan throws; one to three entries with the portfolio last and a skill entry first unless the portfolio is alone |
| ProfileDashboard.MilestonesReactEntry | src/controllers/profile.controller.js:175-183 | the React entry is there exactly when a named-before skill mentioning "react" has a level below 80 |
| ProfileDashboard.MilestonesScriptEntry | src/controllers/profile.controller.js:185-193 | the JavaScript entry is there exactly when a named-before skill mentioning "javascript" has a level below 90 |
| ProfileDashboard.PortfolioTitleDiffers | src/controllers/profile.controller.js:177-196 | the portfolio title differs from both skill titles |
| ProfileDashboard.GenerateRecommendations | src/controllers/profile.controller.js:206-246 | the pushed and cut list equals the recommendation specification |
| ProfileDashboard.RecommendationsUncut | src/controllers/profile.controller.js:206-246 | the cut to three removes nothing: the list is the course, the certification and the job |
| ProfileDashboard.RecommendationsOrder | src/controllers/profile.controller.js:206-246 | no list exactly when a scan throws; one to three entries with the job last |
| ProfileDashboard.RecommendsCourse | src/controllers/profile.controller.js:211-221 | the course is recommended exactly when a named-before skill mentions "react" |
| ProfileDashboard.RecommendsCertification | src/controllers/profile.controller.js:223-233 | the certification is recommended exactly when a named-before skill mentions "javascript" |
| ProfileDashboard.BuildDashboard | src/controllers/profile.controller.js:120-142 | no dashboard exactly when a list had to be generated and its generation threw; a truthy stored override is used as it is; every field is given |

## Left out

- I/O is not part of this model: Firestore, Cloudinary, the file system, process spawning and logging. Their answers are parameters or outcomes.
- The PASETO cryptography is not modelled. Verification is a function parameter, and reading the public key file (with its `"123"` fallback) is not part of this model.
- Concurrency is not modelled. Every handler runs to completion before the next event. Two requests racing on the same document are not modelled.
- Numbers are `real`. Floating-point rounding and `NaN` are not modelled, except that an absent skill level gives an absent target.
- Case mapping (`toLowerCase`) covers ASCII letters only. UTF-8 decoding of log tails keeps the bytes.
- Compile.CompileLatex: a synchronous throw from `spawn`, the text parser's 1 MB limit, the 415 reply's message text `Unsupported content type. Use text/plain.` and the `console.error` lines are not modelled. The 415 reply's echo of `content-type` and `content-length` is modelled.
- Compile.TimeoutMs: a `LATEX_TIMEOUT_MS` that is not a number (`NaN`) is not modelled.
- Warmup.StartLatexWarmup: a `LATEX_WARMUP_TIMEOUT_MS` that is not a number, and the trimming of the logged tails, are not modelled.
- TokenValidation.VerifyForgotToken: a failing `Token.doc(docId).delete()` (src/middlewares/auth/tokenValidation.js:200) is not modelled. The source then answers 401 "Invalid or expired forgot token: …" after the claims were already copied into the body. Duplicate token documents beyond the one `limit(1)` returns are not modelled.
- TokenValidation.Verdict: a refusal carries its status and message only. The body key is not modelled: it is `MESSAGE` in most refusals but `message` in `admintokenValidator`'s role refusal (src/middlewares/auth/tokenValidation.js:105).
- JsonValue.SetField: when a claim is absent, `req.body.name = payload.name` creates the key `name` with the value `undefined` (src/middlewares/auth/tokenValidation.js:51-55), and Zod 3 keeps such a present-but-undefined key. The model drops the key, so an undefined value and a missing key are the same.
- Warmup.StartLatexWarmup: a synchronous throw from `spawn` (src/utils/latexWarmup.js:28) is caught by the outer `catch` (line 55), which only logs and leaves `tmpDir` behind. This path is not modelled.
- Zod.Partial: the model follows Zod 3, where the optional wrapper that `.partial()` adds answers an absent key before `.default()` runs. Zod 4 applies defaults inside optional fields, so there an empty roadmap update would reset `completionRate`, `progress` and `phases`, and a profile update would write `isActive: true`. The repository pins no Zod version. Zod.PartialAppliesNoDefault, RoadmapSchema.UpdateIsPartial and Roadmap.RoadmapStore.Update hold for Zod 3 only.
- Roadmap.CreatePayload: one `now` stamps both `createdAt` and `updatedAt`. The source calls `toISTIso()` twice (src/controllers/roadmap.controller.js:23-24), so the two stamps can differ by a millisecond.
- Profile.UserStore.UploadResume: destroying the old résumé on Cloudinary (lines 294-309) and an upload call that throws are not modelled. The stored public id and url come from the upload function.
- ProfileDashboard.BuildDashboard: the 400 and 404 lookup steps of `getDashboardData` are not modelled. The function works on a typed view of a found user, which assumes the stored document has the types the schema gives it.
- Roadmap.RoadmapStore.Update: the write is a shallow `+` of the update onto the stored document. The roadmap schema's top-level fields hold no nested objects (phases are arrays, which Firestore replaces), so this equals the deep merge used for profiles.
- DocMerge.Merge: Firestore's treatment of `undefined` values and of empty nested maps is not modelled.
- Zod.Parse: non-object bodies and the error details returned with a 400 (`flatten()`) are not modelled.
- Recommendation ratings are held in tenths (4.8 is 48), since the model has no need for fractional ratings.
- EmailKey: idempotence of the whole key derivation is not proved. A key can end in `_` after the cut to 120 characters (TruncatedKeyCanEndInUnderscore).
