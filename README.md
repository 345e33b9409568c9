# ai-debater core in Dafny

A model of the core of `ai-debater`. This command-line tool runs a fixed
five-call debate pipeline against a text-completion service. The model covers:

- **Input sanitizing** (`sanitizeInput`): every text field is trimmed with
  JavaScript's `trim` whitespace set; `trim` is `trimEnd` after `trimStart`. Argument lists keep their non-blank
  entries, in order.
- **Text extraction** (`extractText`): the text blocks of a response are
  joined with newlines, then trimmed.
- **The pipeline** (`runDebate`): input and key checks come first. Then come
  one evidence-ledger call, two prompt-construction calls (for, against) and
  two evaluation calls (for, against).
  - Each call goes through a client object that logs the request. Its answer
    is extracted and parsed.
  - The first failure ends the run.
- **The command-line parser** (`parseArgs`): a left-to-right loop over the
  tokens. Flags take one token; options take the next token as their value.

Modules:

- `Wrappers`: `Option` and `Result`.
- `Text`: `trim` and `join`.
- `Sanitizer`: `sanitizeInput`.
- `Response`: content blocks, `extractText` and parsed JSON values.
- `Debate`: configuration, the client class, the agent steps, `runDebate` and its specification `Pipeline`.
- `Cli`: `parseArgs`.
- `Payload`: the request `main` builds from the parsed arguments. It backs the finding below.

How the service and parser are represented:

- The completion service is a function, `Oracle`. It maps the requests made
  so far and the new request to a reply.
- `JSON.parse` is a partial function, `Parser`.
- `RunDebate` takes both as parameters. It returns the outcome and the
  client it created, if any; the client records every request it received.
- Its contract ties the outcome and the client's request log to the
  specification function `Pipeline`. The lemmas below prove what `Pipeline` promises:
  - the order and chaining of calls;
  - which failure ends a run;
  - the shape of a successful result.

## Model

| member | source | states |
|---|---|---|
| Text.Trim | src/debateEngine.mjs:15 | the result is no longer than the input |
| Text.TrimIsTrimmed | src/debateEngine.mjs:15 | the trimmed string neither starts nor ends with a whitespace character |
| Text.TrimSplits | src/debateEngine.mjs:15 | the trimmed text is a contiguous slice of the input; everything cut off on either side is whitespace |
| Text.TrimExactly | src/debateEngine.mjs:15 | trimming whitespace + t + whitespace, where t is already trimmed, gives exactly t |
| Text.TrimKeepsTrimmed | src/debateEngine.mjs:15 | an already trimmed string is unchanged by trimming |
| Text.TrimIdempotent | src/debateEngine.mjs:15 | trimming twice is trimming once |
| Text.TrimStart | src/debateEngine.mjs:15 | the result is no longer than the input |
| Text.TrimEnd | src/debateEngine.mjs:15 | the result is no longer than the input |
| Text.TrimStartSuffix | src/debateEngine.mjs:15 | the kept text is a suffix of the input; the cut-off prefix is whitespace; the kept text does not start with whitespace |
| Text.TrimEndPrefix | src/debateEngine.mjs:15 | the kept text is a prefix of the input; the cut-off suffix is whitespace; the kept text does not end with whitespace |
| Text.TrimStartSkips | src/debateEngine.mjs:15 | whitespace followed by text that does not start with whitespace loses exactly that whitespace |
| Text.TrimEndSkips | src/debateEngine.mjs:15 | text that does not end with whitespace, followed by whitespace, loses exactly that whitespace |
| Text.Join | src/debateEngine.mjs:9 | no parts join to the empty string; one part joins to itself |
| Text.JoinAppend | src/debateEngine.mjs:9 | joining two non-empty lists concatenated is joining each with one separator between |
| Sanitizer.CleanList | src/debateEngine.mjs:16-21 | the result is no longer than the input |
| Sanitizer.CleanListIsClean | src/debateEngine.mjs:17 | every entry of the result is non-empty and trimmed |
| Sanitizer.CleanField | src/debateEngine.mjs:16-21 | a missing list becomes empty; a present one is cleaned |
| Sanitizer.CleanString | src/debateEngine.mjs:15 | the result is trimmed; a missing field becomes empty |
| Sanitizer.SanitizeInput | src/debateEngine.mjs:13-24 | missing text fields become empty; present ones are trimmed; a missing list becomes empty and a present one is cleaned |
| Sanitizer.SanitizeCanonical | src/debateEngine.mjs:13-24 | the result is canonical: both text fields are trimmed and both lists hold only non-empty trimmed entries |
| Sanitizer.CleanListAppend | src/debateEngine.mjs:17 | cleaning works entry by entry, so it keeps order |
| Sanitizer.CleanListMembers | src/debateEngine.mjs:17 | y is in the cleaned list iff y is non-empty and is the trim of some input entry |
| Sanitizer.CleanListKeepsClean | src/debateEngine.mjs:17 | a clean list is unchanged by cleaning |
| Sanitizer.SanitizeKeepsCanonical | src/debateEngine.mjs:13-24 | a canonical request is a fixed point of sanitizing |
| Sanitizer.SanitizeIdempotent | src/debateEngine.mjs:13-24 | sanitizing a sanitized request changes nothing |
| Response.TextsOf | src/debateEngine.mjs:7-8 | at most one text per block |
| Response.ExtractText | src/debateEngine.mjs:5-11 | a message without content gives the empty string |
| Response.ExtractTextTrimmed | src/debateEngine.mjs:5-11 | the extracted text neither starts nor ends with whitespace |
| Response.TextsOfAppend | src/debateEngine.mjs:7-8 | selection distributes over concatenation, so block order is kept |
| Response.TextsOfMembers | src/debateEngine.mjs:7-8 | t is selected iff some block of type "text" carries t |
| Response.IgnoresNonText | src/debateEngine.mjs:7 | inserting a block that is not a text block does not change the extracted text |
| Response.TwoTextBlocks | src/debateEngine.mjs:9-10 | two text blocks come out as their texts with one newline between, trimmed |
| Response.ExtractTextStable | src/debateEngine.mjs:5-11 | extracting from a single text block holding extracted text gives that text back |
| Debate.DefaultModel | src/debateEngine.mjs:3 | the environment's model when set and non-empty, else the fallback model |
| Debate.ChooseModel | src/debateEngine.mjs:165 | the option's model when set and non-empty, else the default model; never empty |
| Debate.CompletionClient.Create | src/debateEngine.mjs:142-147 | the reply is the service's answer given the requests before it; the request is appended to the log |
| Debate.AskAgent | src/debateEngine.mjs:142-150 | one call is logged, and the result is the parsed extracted text, a transport error or a parse error |
| Debate.GenerateEvidenceLedger | src/debateEngine.mjs:29-66 | one ledger request carrying the sanitized payload is logged and answered |
| Debate.GenerateEvaluationPrompt | src/debateEngine.mjs:68-107 | one prompt request carrying the ledger and the side is logged and answered |
| Debate.RunEvaluation | src/debateEngine.mjs:109-151 | one evaluation request carrying the generated prompt and the side is logged and answered |
| Debate.RunDebate | src/debateEngine.mjs:153-165 | a blank idea fails and no client is returned; then a missing key fails and no client is returned; otherwise a new client holding the key and the service is created, and the outcome and that client's request log are exactly the pipeline's |
| Debate.AnswerCases | src/debateEngine.mjs:142-150 | a transport failure is that error; a delivered message succeeds iff its extracted text parses, with the parsed value, and otherwise fails as malformed JSON carrying that text |
| Debate.GeneratedPromptCases | src/debateEngine.mjs:174-180 | reading `generatedPrompt` fails iff the answer is `null`, naming the side; otherwise it is the member's value when the answer is an object holding it, and absent otherwise |
| Debate.RunStages | src/debateEngine.mjs:167-200 | on a fresh client, the outcome and the client's log are exactly the pipeline's |
| Debate.PipelineChained | src/debateEngine.mjs:167-182 | at most five calls, in stage order, all with the chosen model; every call before the last was answered; the prompts get the ledger answer; the evaluations get the matching side's generated prompt |
| Debate.PipelineFailure | src/debateEngine.mjs:167-182 | a failed run ends at its first failing answer with that error, or, if a prompt answer was null, just after the next call |
| Debate.PipelineSuccess | src/debateEngine.mjs:184-200 | a successful run made five answered calls; the result holds the sanitized input, the model, the ledger answer, and for each side its generated prompt and evaluation |
| Debate.PipelineCompletes | src/debateEngine.mjs:167-200 | if every answer parses to non-null JSON, the run makes five calls and succeeds |
| Cli.FlagOf | src/index.mjs:42-82 | exactly the seven recognised spellings name a flag, "-h" and "--help" both naming help |
| Cli.ValueAfter | src/index.mjs:53 | the next token, or nothing past the end of the arguments |
| Cli.Scan | src/index.mjs:39-83 | the positions read as flags lie in range, from the start position on |
| Cli.ScanSteps | src/index.mjs:39-83 | every position read but the last holds a recognised flag, and the next position is the one after what that flag consumed |
| Cli.ScanEnds | src/index.mjs:39-83 | the scan starts at the first position; its last position holds an unknown token or a flag that consumes the rest of the arguments |
| Cli.ScanIncreasing | src/index.mjs:39 | the positions read strictly increase |
| Cli.ValuesAreSkipped | src/index.mjs:52-80 | the token after an option is its value and is never read as a flag |
| Cli.LastValueSnoc | src/index.mjs:52-80 | a later occurrence of an option overrides every earlier one |
| Cli.MentionsSnoc | src/index.mjs:42-50 | a boolean flag is set once any occurrence is read |
| Cli.CollectFields | src/index.mjs:34-85 | help and stdin are set iff they occur; the lists hold the value after each occurrence, in order; each other option holds the value after its last occurrence |
| Cli.UnknownAfterFlag | src/index.mjs:39-82 | `--help bogus` fails with "Unknown argument: bogus": a recognised flag does not end the pass |
| Cli.ParseFromOutcome | src/index.mjs:39-85 | the loop from any point reached gives the whole command line's outcome |
| Cli.ParseArgs | src/index.mjs:33-86 | it fails iff the last position read holds an unknown token, with "Unknown argument: " and that token; otherwise it returns what the flags read set; no arguments give the empty result |
| Payload.Coerced | src/debateEngine.mjs:17 | one string per entry, in order: a given value is kept and a missing one becomes "undefined" |
| Payload.PayloadAsWritten | src/index.mjs:113-118 | both argument lists are passed on as the coerced parsed lists |
| Payload.MissingValueBecomesArgument | src/index.mjs:113-118 | a trailing `--for` yields a `None` entry, and sanitizing the payload as written turns it into the argument "undefined" |
| Payload.PresentMembers | src/index.mjs:58-62 | a text is kept iff it was given as a value |
| Payload.PayloadOf | src/index.mjs:113-118 | both argument lists are passed on with missing values left out |
| Payload.PayloadInventsNothing | src/index.mjs:113-118 | with missing values dropped, y is a sanitized "for" argument iff y is non-empty and is the trim of a value given after `--for` |
| Payload.MissingValueDropped | src/index.mjs:113-118 | with missing values dropped, the same command line yields no arguments |

## Left out

- The completion transport: the SDK client, network errors, authentication, and the `max_tokens` and `temperature` settings. The service is the `Oracle` parameter, and a transport error is one kind of reply.
- `JSON.parse`: it is the `Parser` parameter. Parsed values are a `Json` datatype, and numbers are `real`.
- The prompt templates in src/debateEngine.mjs:30-55, 69-96 and 110-140: a request carries the structured values its prompt embeds, not the rendered text.
- `process.env` and `dotenv`: the environment is the `Env` parameter. `DEFAULT_MODEL` is recomputed from it rather than read once at load time.
- `main`, `printHelp` and `readStdin`: console output, the stdin JSON branch and the exit code. Of `main`, only the payload built from flags is modelled, in `Payload`.
- JavaScript coercion:
  - `sanitizeInput` applies `String(x)` to arbitrary values. The model's raw input holds strings or nothing.
  - A field that is missing or falsy is `None`, so `idea: 0` and an absent idea are one case.
  - A non-array list field is `None`.
- `generatedPrompt` values that are not strings: they are passed on as `Json`, not interpolated into the template text.
- Errors carry no stage name and no truncated raw-text sample. The code throws plain errors, and an unparsable answer is `MalformedJson` with the extracted text.
- The pipeline runs strictly in sequence, as the code does, not with concurrent sides.
- A `null` prompt answer: the code throws a `TypeError` when it reads `generatedPrompt` off it, after the next call has already been made. The model reports `NullPrompt` at that same point.
- Debate.RunDebate: that no request is made before the idea and key checks (src/debateEngine.mjs:154-164) shows only in the method body. The contract says only that no client is returned on those exits: a client that is created, called and then dropped would not be visible to it.
- No schema validation of parsed answers: the code does none, so the model passes parsed values through unchecked.

## Findings

| source | as written | input that shows it | evidently intended | confidence | as-written member | corrected member |
|---|---|---|---|---|---|---|
| src/index.mjs:58-62, 113-118 | a trailing `--for` pushes `undefined`; `sanitizeInput` turns it into the text "undefined", which becomes a "for" argument | `--idea grow --for` | a missing value adds no argument | medium, not executed | Payload.MissingValueBecomesArgument | Payload.PayloadInventsNothing |
