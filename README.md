# voltagent-nuxt core, modelled in Dafny

This project models the logic that voltagent-nuxt writes itself, around the
VoltAgent framework it builds on:

- the `execute` bodies of the three tools in `voltagent/index.ts`. These are
  `uppercase` (ASCII upper-casing), `countWords` (`trim`, `split(/\s+/)`,
  then a filter that drops empty tokens) and `writeStory` (echoes its input
  as `{ topic }`). Module `Tools`, file `tools.dfy`;
- the create-once guard `getVoltAgentInstance`. It fills the global slot
  `globalThis.voltAgentInstance` on first use and returns its content on later
  calls. Module `Singleton`, file `singleton.dfy`;
- the `POST /api/chat` handler of `server/api/chat.post.ts`. It reads the
  body, validates `message`, streams the agent's answer, and maps every
  thrown error to one generic 500 response. Module `ChatPost`, file
  `chat_post.dfy`.

Whitespace is one predicate, `Tools.IsSpace`. It holds the WhiteSpace and
LineTerminator code points of ECMA-262 (sections 12.2 and 12.3), which
`String.prototype.trim` and the regular-expression class `\s` both use.
With a regular expression as separator, `split` is carried out by
`RegExp.prototype[@@split]` (ECMA-262 section 22.2.6.14). It tries a sticky
match of `/\s+/` at each index and cuts the text there. A piece therefore
ends at the next whitespace character, and the greedy match consumes the
whole whitespace run after it. A separator at either end gives an empty
piece. The empty string yields no match at all, so `"".split(/\s+/)` is
`[""]`. `CountWords` is proved equal to an independent reference tokeniser,
`Tokens` (the maximal whitespace-free runs). The properties of the tool are
proved about `Tokens` and carried over to `CountWords`.

The handler follows the code as written. For a missing or invalid `message`
it builds a 400 error, `createError({ statusCode: 400, statusMessage:
'Message is required' })` (server/api/chat.post.ts:22-25). That error is
thrown inside the `try` block, and the `catch` of that same block replaces it
with a 500. So the 400 the handler builds never reaches the client; see
"## Findings". `HandleIntended` is the
corrected handler, and the model proves where the two differ.

External collaborators become parameters:
- the parsed request body, or a failure of `readBody`: `ChatPost.BodyRead`;
- the combined outcome of `streamText` and `toUIMessageStreamResponse`:
  `ChatPost.AgentOutcome`, where the stream is of an arbitrary type `S`;
- the VoltAgent host object: `Singleton.VoltAgent`, of which only the
  identity matters.

## Model

| member | source | states |
|---|---|---|
| Tools.IsSpaceIsEcmaSet | voltagent/index.ts:27-28 | the whitespace that `trim` strips and `\s` matches is exactly ECMA-262's WhiteSpace and LineTerminator code points: TAB, LF, VT, FF, CR, SPACE, NO-BREAK SPACE, the other Zs characters, LINE and PARAGRAPH SEPARATOR, and ZERO WIDTH NO-BREAK SPACE |
| Tools.TrimStart | voltagent/index.ts:27 | the result is a suffix of the input, everything dropped is whitespace, and the result does not start with whitespace |
| Tools.TrimEnd | voltagent/index.ts:27 | the result is a prefix of the input, everything dropped is whitespace, and the result does not end with whitespace |
| Tools.Trim | voltagent/index.ts:27 | `trim` strips the start and then the end; the result is no longer than the text and neither starts nor ends with whitespace |
| Tools.TrimIsCut | voltagent/index.ts:27 | `trim` removes exactly a whitespace prefix and a whitespace suffix, and the result is the text between them |
| Tools.TakeWord | voltagent/index.ts:28 | the piece before the next `\s+` match is a whitespace-free prefix, followed by whitespace or by the end of the text |
| Tools.SplitWs | voltagent/index.ts:28 | `split(/\s+/)` always yields at least one piece, and no piece holds a whitespace character (where empty pieces can occur: see `SplitWsInnerPieces`) |
| Tools.SplitWsInnerPieces | voltagent/index.ts:28 | a text that neither starts nor ends with whitespace splits into non-empty pieces only |
| Tools.NonEmpty | voltagent/index.ts:29 | the filter keeps every non-empty element as often as it occurs and no empty string (multiset equation) |
| Tools.NonEmptyAppend | voltagent/index.ts:29 | the filter keeps the order: filtering `a + b` gives the filtered `a` followed by the filtered `b` |
| Tools.NonEmptyKeepsWords | voltagent/index.ts:29 | a list that holds no empty string passes the filter unchanged |
| Tools.CountWords | voltagent/index.ts:25-31 | `count` equals the number of `words`, and every word is non-empty and whitespace-free |
| Tools.Tokens | voltagent/index.ts:26-29 | the reference tokeniser yields only non-empty, whitespace-free words |
| Tools.NonEmptySplitWs | voltagent/index.ts:28-29 | filtering the empty pieces out of `split(/\s+/)` gives exactly the reference tokens, for every string (trimmed or not) |
| Tools.TokensSeparate | voltagent/index.ts:28 | a non-empty whitespace run separates the words on its left from the words on its right |
| Tools.CountWordsIsTokens | voltagent/index.ts:26-29 | the tool's words are exactly the maximal whitespace-free runs of the text, in order |
| Tools.CountWordsConcat | voltagent/index.ts:26-29 | concatenating the words in order gives the text with every whitespace character deleted: nothing else is lost and order is kept |
| Tools.CountWordsBlank | voltagent/index.ts:26-30 | the count is 0 if and only if the text is empty or whitespace-only; in that case `split` yields the lone `""`, and the filter turns it into `count = 0, words = []` |
| Tools.TrimmedSplitHasNoEmptyPiece | voltagent/index.ts:27-29 | for a text that is not blank, `split` after `trim` yields no empty piece, so the filter drops nothing and the words are exactly the pieces of the split |
| Tools.CountWordsSeparate | voltagent/index.ts:26-29 | the words of `a + whitespace + b` are the words of `a` followed by the words of `b` |
| Tools.CountWordsCollapse | voltagent/index.ts:26-29 | a run of whitespace gives the same result as a single space |
| Tools.CountWordsPadding | voltagent/index.ts:26-29 | leading and trailing whitespace leave the result unchanged |
| Tools.CountWordsRoundTrip | voltagent/index.ts:26-30 | for any list of non-empty, whitespace-free words, counting their single-space join gives back that list and its length |
| Tools.CountWordsExample | voltagent/index.ts:25-31 | `"the quick brown fox"` gives count 4 and the words `the`, `quick`, `brown`, `fox` |
| Tools.ToUpperAscii | voltagent/index.ts:15 | the length is kept; each `a`-`z` becomes the matching `A`-`Z` (32 code points lower); every other character is unchanged |
| Tools.UpperChar | voltagent/index.ts:15 | a lower-case ASCII letter becomes the upper-case letter 32 code points lower; every other character is unchanged |
| Tools.Uppercase | voltagent/index.ts:14-16 | the tool's `result` has the input's length, holds each input character upper-cased in place, and has no lower-case ASCII letter |
| Tools.ToUpperIdempotent | voltagent/index.ts:15 | upper-casing twice equals upper-casing once |
| Tools.ToUpperFixedPoint | voltagent/index.ts:15 | upper-casing leaves a string unchanged if and only if it holds no lower-case ASCII letter |
| Tools.UppercaseExample | voltagent/index.ts:14-16 | the text `"hello world"` gives `{ result: "HELLO WORLD" }` |
| Tools.WriteStory | voltagent/index.ts:40-43 | the returned `topic` is exactly the input text |
| Singleton.GlobalThis.constructor | voltagent/index.ts:97-99 | the slot starts as given (empty, or holding a host from an earlier load), with no construction counted |
| Singleton.GlobalThis.GetVoltAgentInstance | voltagent/index.ts:102-115 | an empty slot is filled with a freshly constructed host, which is returned, and that is the only construction; a filled slot is returned unchanged and nothing is constructed; at most one construction ever happens |
| Singleton.LoadThenReload | voltagent/index.ts:102-118 | a module load followed by a hot reload returns the same host twice, with at most one construction; a host already in the slot is the one returned |
| ChatPost.Truthy | server/api/chat.post.ts:21 | a value is falsy (`!message` holds) exactly when it is `undefined`, `null`, `false`, `0` or `""` |
| ChatPost.Destructure | server/api/chat.post.ts:19 | `const { message } = body` throws exactly for a `null` or `undefined` body; an object yields its `message` field; any other value yields `undefined` |
| ChatPost.Rejects | server/api/chat.post.ts:21 | the guard `!message \|\| typeof message !== 'string'` lets through exactly the non-empty strings |
| ChatPost.TryBlock | server/api/chat.post.ts:18-32 | the `try` block throws the read error, the destructuring error or the 400 `Message is required` where each arises; otherwise it hands the message to `streamText` (and only then) and returns the stream or throws the agent's error |
| ChatPost.Catch | server/api/chat.post.ts:33-38 | a returned stream reaches the client; every thrown error, whatever it is, becomes 500 `Error generating response` |
| ChatPost.Handle | server/api/chat.post.ts:17-40 | `streamText` is called if and only if `message` is a non-empty string, and it receives that string unchanged; the agent's stream is returned if and only if it was called and succeeded; every error response is 500 `Error generating response` |
| ChatPost.InvalidMessageIs500 | server/api/chat.post.ts:18-38 | for a missing, null, falsy or non-string `message`, the `try` block throws the 400 `Message is required`; the agent is never called; and the client receives 500 `Error generating response` |
| ChatPost.MissingMessageExample | server/api/chat.post.ts:19-38 | the body `{}` gets 500, with no call to the agent |
| ChatPost.FailureDetailHidden | server/api/chat.post.ts:29-38 | the response to a failed agent call does not depend on the failure's cause |
| ChatPost.HandleIntended | server/api/chat.post.ts:21-38 | corrected handler: invalid input gets 400 `Message is required` (if and only if the guard rejects); other errors get 500; the agent call and the stream are as in `Handle` |
| ChatPost.CatchIntended | server/api/chat.post.ts:33-38 | corrected `catch`: a returned stream reaches the client; an error built by `createError` keeps its status and message; any other error becomes 500 `Error generating response` |
| ChatPost.CatchesDifferOnHttpErrors | server/api/chat.post.ts:21-38 | the two `catch` blocks give different responses exactly for an HTTP error other than the generic 500 |
| ChatPost.IntendedDiffersOnlyOnValidation | server/api/chat.post.ts:21-38 | the handler as written and the corrected handler differ exactly on the requests the guard rejects |

## Findings

| source | as written | input that shows it | evidently intended | confidence | as-written member | corrected member |
|---|---|---|---|---|---|---|
| server/api/chat.post.ts:21-38 | the 400 `Message is required` is thrown inside the `try` block, so its own `catch` replaces it with 500 `Error generating response` | body `{}`, or `{"message": ""}`, or `{"message": 42}` | the client receives the 400 `Message is required` that the handler builds at lines 22-25 for a missing or invalid `message` | high; not executed | ChatPost.InvalidMessageIs500 | ChatPost.HandleIntended |

The handler as written, `ChatPost.Handle`, is the model of the endpoint. The
handler builds a 400 for invalid input, but its own `catch` turns it into the
500 that the model gives. `ChatPost.HandleIntended` is the corrected handler.
`ChatPost.IntendedDiffersOnlyOnValidation` shows that the correction changes
nothing but the validation path.

## Left out

- Tools.ToUpperAscii: upper-cases ASCII letters only. JavaScript's `toUpperCase` applies the full Unicode case mapping (Unicode Standard section 3.13), for example `é` to `É`, and `ß` to `SS`, which changes the length. That mapping is a library table that the repository does not contain.
- Tools.Uppercase: inherits the ASCII-only restriction of `ToUpperAscii`.
- Strings are sequences of Unicode scalar values. JavaScript strings are UTF-16 code units, so lone surrogates cannot be represented. Every whitespace code point lies in the Basic Multilingual Plane, so the tokens agree, and the `word.length > 0` test only asks whether a word is empty.
- voltagent/memory.ts: it only configures the framework's LibSQL storage adapter, and has no logic of its own.
- Agent, supervisor and VoltAgent construction, instruction texts and the supervisor's output format (voltagent/index.ts:46-94, 104-111). The framework and the language model carry these out. The model keeps only the host's identity.
- Zod schema validation of tool arguments (voltagent/index.ts:11-13, 22-24, 37-39): a foreign library. The tools take their `text` as a string.
- The language model, `streamText` and `toUIMessageStreamResponse`: one outcome parameter (a stream or a failure with a cause). Stream framing is not modelled.
- `readBody` parsing and `createError` internals from h3/Nuxt: the parsed body, or a read failure, is a parameter.
- ChatPost.HandleIntended: a `readBody` failure is modelled as `ReadError`, which is not an `HttpError`, so the corrected `catch` maps it to 500. `IntendedDiffersOnlyOnValidation` relies on this. If h3 raised that failure through `createError`, the corrected `catch` would pass its status through, and the two handlers would also differ on unreadable bodies.
- The `storageLimit: 100` of the in-memory storage adapter (server/api/chat.post.ts:11-13): eviction happens inside the library.
- ChatPost.Handle: `Json.Num` is a real, so `NaN` and `-0`, which are both falsy, cannot be represented. It makes no difference here, because every non-string `message` is rejected anyway.
- ChatPost.Handle: a `message` inherited through a prototype chain is not modelled. Non-object bodies are taken to have no `message` property.
- `async`/`await`, the `console.error` logging in the `catch` block (server/api/chat.post.ts:34) and the hono server: the model has no I/O and no concurrency.
