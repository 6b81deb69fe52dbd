# IntelliTranslate, modelled in Dafny

IntelliTranslate is a Visual Studio extension that offers English translations
of the Japanese word under the caret as IntelliSense completions. This project
models its three pieces of logic and proves what they promise.

- **The token under the caret** (`caret_token.dfy`, module `CaretToken`).
  Both the command handler and the completion source count the "word" code
  units left of the caret (`head`) and right of it (`tail`). A code unit
  qualifies when it lies above the Latin-1 range and is not a control,
  punctuation, separator, symbol or white-space character. The token is
  `s[p - head .. p + tail]`. The model proves the bounds, the content and the
  maximality of the token. `Head` and `Tail` are direct recursive counts. They
  are proved equal to the code's LINQ expressions `Reverse().TakeWhile(q).Count()`
  and `TakeWhile(q).Count()`.
- **Reading the translation service's answer** (`json.dfy`, module
  `JsonTree`, and `completion_source.dfy`, module `CompletionSource`). The
  answer is a JSON array:
  - the headline pair is `(ary[0][0][0], ary[0][0][1])`;
  - the alternatives are the entries at index 2 of every group in `ary[1]`,
    flattened, each read as `(entry[0], string.Join(", ", entry[1]))`.

  `JsonTree` models the Newtonsoft.Json accesses the code uses: the integer
  indexer, `Value<string>()`, enumeration and `ToString()`. An access that
  throws in .NET yields `Thrown`. The whole read is all-or-nothing: any throw
  leaves the list empty. `AugmentCompletionSession` then adds one completion
  set whose span is exactly the token.
- **The command filter** (`command_handler.dfy`, module `CommandHandler`).
  `Exec` pre-processes AUTOCOMPLETE/COMPLETEWORD (start a session, only when
  the caret is on a token), RETURN and TAB (complete) and CANCEL (dismiss).
  Such a command counts as handled only when its operation returns true: for
  example, RETURN with no session is forwarded. `Exec` forwards every command
  it did not handle to the next handler. When the
  command succeeded, it then starts a session on a typed space, or filters the
  session on other typed characters and on backspace. The class
  `CompletionCommandHandler` keeps three fields:
  - `m_session`;
  - the sessions whose `Dismissed` event its lambda is attached to;
  - the calls it has made on the IDE.

  Each method is proved equal to a function of the state before it
  (`CancelStep`, `CompleteStep`, `StartSessionStep`, `ExecStep`, …). The
  lemmas about these functions state the outcomes.

What the IDE decides is an input. A `Host` value carries:
- the caret's line and column;
- whether an item is selected;
- whether `Commit` or `Start` dismisses the session;
- whether the next handler's edit dismisses the current session, for example
  when it moves the caret out of the session's span;
- which session the broker hands out;
- the next handler's `HRESULT`.

The HTTP response is an input too (`Response`). The Unicode category tests are
an input (`CharClasses`), and every lemma holds for every choice of them.

The code reads the entries at index 2 of every group. An
answer whose groups have only two elements, `[null, [entry, ...]]`, therefore
makes `token[2]` throw, and the whole answer, headline included, yields
nothing (`TwoElementGroupGivesNothing`). An answer whose groups carry the
entries at index 2 yields the headline and then the entries
(`ThreeElementGroupExample`).

## Model

| member | source | states |
|---|---|---|
| `CaretToken.Qualifies` | IntelliTranslate/Intellisense/CompletionSource.cs:44 | The `TakeWhile` predicate: above `0xFF` and not a control, punctuation, separator, symbol or white-space character. |
| `CaretToken.IsBlank` | IntelliTranslate/Intellisense/CompletionSource.cs:51 | `string.IsNullOrWhiteSpace` on a non-null string: every code unit is white space, so the empty string is blank. |
| `CaretToken.Reverse` | IntelliTranslate/Intellisense/CompletionSource.cs:43 | LINQ `Reverse`: the same length, with element `i` taken from position `\|xs\| - 1 - i`. |
| `CaretToken.TakeWhile` | IntelliTranslate/Intellisense/CompletionSource.cs:44 | LINQ `TakeWhile`: a prefix of the input whose elements all pass, followed by an element that fails or by the end of the input. |
| `CaretToken.Head` | IntelliTranslate/Intellisense/CompletionCommandHandler.cs:160-163 | `head <= p`. Every code unit in `[p - head, p)` qualifies, and the one just before that range, if any, does not. |
| `CaretToken.HeadIsLinq` | IntelliTranslate/Intellisense/CompletionSource.cs:42-45 | `Head` equals `s.Substring(0, p).Reverse().TakeWhile(q).Count()`. |
| `CaretToken.Tail` | IntelliTranslate/Intellisense/CompletionCommandHandler.cs:164-166 | `tail <= \|s\| - p`. Every code unit in `[p, p + tail)` qualifies, and the one just after that range, if any, does not. |
| `CaretToken.TailIsLinq` | IntelliTranslate/Intellisense/CompletionSource.cs:46-48 | `Tail` equals `s.Substring(p).TakeWhile(q).Count()`. |
| `CaretToken.Scan` | IntelliTranslate/Intellisense/CompletionSource.cs:42-49 | The token lies within the line, all its code units qualify, and both neighbours just outside it fail the test. |
| `CaretToken.TokenText` | IntelliTranslate/Intellisense/CompletionSource.cs:50 | `Substring(p - head, length)` is in range: the text is `length` long, starts `head` before the caret, and all its code units qualify. |
| `CaretToken.TokenIsMaximal` | IntelliTranslate/Intellisense/CompletionSource.cs:42-48 | Any qualifying range that contains the caret lies inside the token. |
| `CaretToken.WholeRunIsToken` | IntelliTranslate/Intellisense/CompletionSource.cs:42-50 | On a line where every code unit qualifies, the token is the whole line, at any offset. |
| `CaretToken.TokenNonEmptyIffNeighbourQualifies` | IntelliTranslate/Intellisense/CompletionSource.cs:42-49 | `length > 0` exactly when `s[p-1]` (for `p > 0`) or `s[p]` (for `p < \|s\|`) qualifies. |
| `CaretToken.Latin1LineHasNoToken` | IntelliTranslate/Intellisense/CompletionSource.cs:44-47 | A line of code units `<= 0xFF` gives an empty token at every offset. |
| `CaretToken.TokenBlankIffEmpty` | IntelliTranslate/Intellisense/CompletionSource.cs:49-51 | `string.IsNullOrWhiteSpace(t)` is false exactly when `length > 0`. |
| `JsonTree.At` | IntelliTranslate/Intellisense/CompletionSource.cs:69-71 | The `JToken` integer indexer: an array's element, and a throw on a primitive, on null or out of range. `AtIsChild` proves how it relates to enumeration. |
| `JsonTree.AtIsChild` | IntelliTranslate/Intellisense/CompletionSource.cs:71-72 | The indexer and enumeration agree: `token[i]` succeeds exactly for the indices of the enumerated children, and gives that child. |
| `JsonTree.StringValue` | IntelliTranslate/Intellisense/CompletionSource.cs:69 | `Value<string>()` succeeds exactly on a non-array, and gives null exactly for JSON null. |
| `JsonTree.Children` | IntelliTranslate/Intellisense/CompletionSource.cs:71-72 | Enumerating a `JToken`: an array yields its elements in order, and a primitive or null (a `JValue`) yields nothing. |
| `JsonTree.Display` | IntelliTranslate/Intellisense/CompletionSource.cs:72 | `JToken.ToString()`: for a string it equals `Value<string>()`, null gives the empty string, and an array gives bracketed JSON text. |
| `JsonTree.Displays` | IntelliTranslate/Intellisense/CompletionSource.cs:72 | One `ToString()` text per element, in order, as `string.Join` takes them. |
| `JsonTree.Join` | IntelliTranslate/Intellisense/CompletionSource.cs:72 | `string.Join(", ", parts)`: the parts in order with the separator between neighbours. `JoinSnoc` states its properties. |
| `JsonTree.JoinSnoc` | IntelliTranslate/Intellisense/CompletionSource.cs:72 | Joining one part gives that part. Joining `parts + [last]` gives the join of `parts`, the separator, then `last`. |
| `CompletionSource.Headline` | IntelliTranslate/Intellisense/CompletionSource.cs:69 | `(ary[0][0][0].Value<string>(), ary[0][0][1].Value<string>())`, throwing where any index or cast throws. `ResponseShape` and `WellShapedCompletions` state when it succeeds and what it gives. |
| `CompletionSource.SelectEntries` | IntelliTranslate/Intellisense/CompletionSource.cs:70-71 | `groups.SelectMany(token => token[2])`: the index-2 children of every group, group by group, throwing if a group has no index 2. The `SelectEntries…` lemmas state its properties. |
| `CompletionSource.ToPair` | IntelliTranslate/Intellisense/CompletionSource.cs:72 | `new KeyValuePair(token[0].Value<string>(), string.Join(", ", token[1]))` for one entry. `ToPairOk` and `EntryPair` state its properties. |
| `CompletionSource.Alternatives` | IntelliTranslate/Intellisense/CompletionSource.cs:70-73 | `ary[1]`, flattened and converted entry by entry. `WellShapedCompletions` states what it gives. |
| `CompletionSource.Completions` | IntelliTranslate/Intellisense/CompletionSource.cs:62-85 | The `completions` list after the `try` block. `ResponseShape` states exactly which answers make it non-empty, and `WellShapedCompletions` states what it then holds: the headline, then one pair per entry, in order. |
| `CompletionSource.SelectPairs` | IntelliTranslate/Intellisense/CompletionSource.cs:72-73 | The `Select(...).ToArray()` succeeds exactly when every entry converts. It then gives one pair per entry, in order. |
| `CompletionSource.SelectEntriesOk` | IntelliTranslate/Intellisense/CompletionSource.cs:70-71 | The `SelectMany(token => token[2])` succeeds exactly when every group has an element at index 2. |
| `CompletionSource.SelectEntriesMembers` | IntelliTranslate/Intellisense/CompletionSource.cs:70-71 | An entry is in the flattened list exactly when it is a child of some group's index-2 element. |
| `CompletionSource.SelectEntriesAppend` | IntelliTranslate/Intellisense/CompletionSource.cs:70-71 | Flattening keeps the groups' order. The entries of `g1 + g2` are those of `g1` followed by those of `g2`, and the whole fails exactly when a part fails. |
| `CompletionSource.ToPairOk` | IntelliTranslate/Intellisense/CompletionSource.cs:72 | An entry converts exactly when it is an array of at least two elements whose first is not an array. |
| `CompletionSource.EntryPair` | IntelliTranslate/Intellisense/CompletionSource.cs:72 | An entry `[word, [s1, ..., sn], ...]` gives key `word` and description `s1, ..., sn`, joined with `", "`. |
| `CompletionSource.ResponseShape` | IntelliTranslate/Intellisense/CompletionSource.cs:68-75 | An answer yields completions exactly when it is well shaped: a headline of two primitives and every group's entries well formed. |
| `CompletionSource.WellShapedCompletions` | IntelliTranslate/Intellisense/CompletionSource.cs:69-75 | A well-shaped answer gives the headline first, then exactly one pair per flattened entry, in service order, with nothing reordered or removed. |
| `CompletionSource.CompletionsAllOrNothing` | IntelliTranslate/Intellisense/CompletionSource.cs:64-85 | Unfolds `Completions` into its two reads, as `ResponseShape` and `WellShapedCompletions` use it. The list is non-empty exactly when the request succeeded and both the headline and all alternatives were read, and it is then the headline followed by the alternatives. |
| `CompletionSource.FailedRequestGivesNothing` | IntelliTranslate/Intellisense/CompletionSource.cs:79-85 | A `WebException` or any other exception leaves the list empty. |
| `CompletionSource.ThreeElementGroupExample` | IntelliTranslate/Intellisense/CompletionSource.cs:69-75 | A concrete answer gives `[("今日", "today"), ("今日", "today, this day")]`. |
| `CompletionSource.TwoElementGroupGivesNothing` | IntelliTranslate/Intellisense/CompletionSource.cs:71 | An answer whose groups have no index-2 element gives no completions, not even the headline. |
| `CompletionSource.ToCompletions` | IntelliTranslate/Intellisense/CompletionSource.cs:95 | One completion per pair, in order. Each uses the key as display and insertion text and the value as description. |
| `CompletionSource.AddedSetsContents` | IntelliTranslate/Intellisense/CompletionSource.cs:89-96 | At most one set is added. One is added exactly when the token is non-empty and the answer yields completions. It is the "Translation"/"翻訳" tab with one completion per pair, in order. |
| `CompletionSource.AddedSetSpansToken` | IntelliTranslate/Intellisense/CompletionSource.cs:94 | The set's span starts at the trigger position minus `head` and is as long as the token text. |
| `CompletionSource.AddedSets` | IntelliTranslate/Intellisense/CompletionSource.cs:89-96 | The completion sets one augmentation adds. `AddedSetsContents` and `AddedSetSpansToken` state their properties. |
| `CompletionSource.SetForToken` | IntelliTranslate/Intellisense/CompletionSource.cs:89-96 | One set over the token's span with the pairs' completions when both are non-empty, and none otherwise. |
| `CompletionSource.AddedSetsAfterRead` | IntelliTranslate/Intellisense/CompletionSource.cs:49-96 | Once the scan has given `head` and `tail`, and the request (made only for a non-empty token) has given the list, the added sets are the one set over that span, or none when the list is empty. |
| `CompletionSource.CompletionSetList.Add` | IntelliTranslate/Intellisense/CompletionSource.cs:91 | `completionSets.Add` appends the set at the end and keeps the sets already there. |
| `CompletionSource.ReadTranslations` | IntelliTranslate/Intellisense/CompletionSource.cs:62-85 | The `try` block, which adds the headline and then the alternatives, leaves exactly the all-or-nothing list `Completions(response)`. |
| `CompletionSource.AugmentCompletionSession` | IntelliTranslate/Intellisense/CompletionSource.cs:31-99 | Without a trigger point nothing happens. Otherwise it queries the service for the token text exactly when the token is non-empty, and appends exactly `AddedSets` to the caller's list. |
| `CommandHandler.SuggestionNeededIffNeighbourQualifies` | IntelliTranslate/Intellisense/CompletionCommandHandler.cs:153-169 | `IsSuggestionNeeded` holds exactly when a neighbour of the caret qualifies. |
| `CommandHandler.Latin1LineNeedsNoSuggestion` | IntelliTranslate/Intellisense/CompletionCommandHandler.cs:160-168 | On a line of code units `<= 0xFF` no suggestion is ever needed. |
| `CommandHandler.SuggestionNeededIffQueryable` | IntelliTranslate/Intellisense/CompletionCommandHandler.cs:167-168 | A suggestion is needed exactly when the completion source's token at the same line and column is not blank, that is, when it would query the service. |
| `CommandHandler.Dismissed` | IntelliTranslate/Intellisense/CompletionCommandHandler.cs:146 | When a session the lambda is attached to raises `Dismissed`, `m_session` becomes null. Any other session leaves the state alone. |
| `CommandHandler.IsSuggestionNeeded` | IntelliTranslate/Intellisense/CompletionCommandHandler.cs:153-169 | The handler's own scan: `head + tail != 0` at the caret. `SuggestionNeededIffNeighbourQualifies` and `SuggestionNeededIffQueryable` state what that means. |
| `CommandHandler.FilterStep` | IntelliTranslate/Intellisense/CompletionCommandHandler.cs:91-98 | `Filter`: nothing without a session, otherwise `SelectBestMatch` then `Recalculate` on it. `FilterOutcome` states its properties. |
| `CommandHandler.CancelStep` | IntelliTranslate/Intellisense/CompletionCommandHandler.cs:100-108 | `Cancel`: false without a session, otherwise `Dismiss`, with the lambda clearing `m_session`. `CancelOutcome` states its properties. |
| `CommandHandler.CompleteStep` | IntelliTranslate/Intellisense/CompletionCommandHandler.cs:110-125 | `Complete(force)`: dismiss when nothing is selected and `force` is false, otherwise commit. The `Complete…` lemmas state its properties. |
| `CommandHandler.StartSessionStep` | IntelliTranslate/Intellisense/CompletionCommandHandler.cs:127-151 | `StartSession`: dismiss and clear the previous session, create or reuse the broker's session, attach the lambda, start. `StartSessionOutcome` states its properties. |
| `CommandHandler.PreProcess` | IntelliTranslate/Intellisense/CompletionCommandHandler.cs:43-63 | The first `switch`: which commands are handled here, and by which operation. |
| `CommandHandler.AfterForward` | IntelliTranslate/Intellisense/CompletionCommandHandler.cs:65-66 | The state the next handler leaves. Its edit can dismiss the current session, which the lambda then clears; nothing else changes. |
| `CommandHandler.PostProcess` | IntelliTranslate/Intellisense/CompletionCommandHandler.cs:68-86 | The second `switch`: a typed space starts a session, other typed characters filter an existing session, and backspace filters. |
| `CommandHandler.ExecStep` | IntelliTranslate/Intellisense/CompletionCommandHandler.cs:38-89 | `Exec` as a function: pre-process, forward if unhandled, post-process on success. The `Exec…` lemmas and `TypedSpaceStartsSession` state its properties. |
| `CommandHandler.NoForwardInPhases` | IntelliTranslate/Intellisense/CompletionCommandHandler.cs:43-86 | Neither `switch` calls the next handler. Only the forwarding step at line 66 does. |
| `CommandHandler.FilterOutcome` | IntelliTranslate/Intellisense/CompletionCommandHandler.cs:91-98 | `Filter` never changes the state. Without a session it calls nothing. With session `v` it calls `SelectBestMatch(v)` and then `Recalculate(v)`. |
| `CommandHandler.CancelOutcome` | IntelliTranslate/Intellisense/CompletionCommandHandler.cs:100-108 | `Cancel` returns true exactly when there was a session. That session is dismissed, and afterwards there is none. |
| `CommandHandler.CompleteWithoutSession` | IntelliTranslate/Intellisense/CompletionCommandHandler.cs:110-113 | `Complete` without a session returns false, changes nothing and calls nothing. |
| `CommandHandler.CompleteWithSession` | IntelliTranslate/Intellisense/CompletionCommandHandler.cs:115-124 | With a session, `Complete` commits and returns true exactly when an item is selected or `force` holds. Otherwise it dismisses the session and returns false, and the session is gone. |
| `CommandHandler.StartSessionOutcome` | IntelliTranslate/Intellisense/CompletionCommandHandler.cs:127-151 | `StartSession` returns true. It dismisses the previous session first, if there is one. It ends with `Start` on the broker's session, which is current afterwards unless starting dismissed it. |
| `CommandHandler.ExecForwardsIffUnhandled` | IntelliTranslate/Intellisense/CompletionCommandHandler.cs:40-66 | The next handler is called exactly when pre-processing did not handle the command. `Exec` then returns its `HRESULT`, and otherwise `S_OK`. |
| `CommandHandler.FailedCommandIsNotPostProcessed` | IntelliTranslate/Intellisense/CompletionCommandHandler.cs:65-68 | When the next handler fails, post-processing is skipped. The state is the one forwarding left, and forwarding is the last call. |
| `CommandHandler.TypedSpaceStartsSession` | IntelliTranslate/Intellisense/CompletionCommandHandler.cs:74-77 | A successful typed space is forwarded first, then starts the broker's session. The previous session is dismissed first only when it survived forwarding, which gives three or four calls. |
| `CommandHandler.TypingOtherwiseKeepsState` | IntelliTranslate/Intellisense/CompletionCommandHandler.cs:78-83 | Post-processing any other typed character, or backspace, is exactly `Filter`. It therefore leaves the state unchanged, and `Exec` ends in the state forwarding left. |
| `CommandHandler.TypingFiltersSurvivingSession` | IntelliTranslate/Intellisense/CompletionCommandHandler.cs:65-83 | A successfully forwarded non-space character gives the calls `Forward`, `SelectBestMatch(v)`, `Recalculate(v)` when session `v` survived forwarding, and `Forward` alone otherwise. |
| `CommandHandler.ExecKeepsInv` | IntelliTranslate/Intellisense/CompletionCommandHandler.cs:38-89 | After any command, the current session, if any, has the `Dismissed` lambda attached. |
| `CommandHandler.CompletionCommandHandler.constructor` | IntelliTranslate/Intellisense/CompletionCommandHandler.cs:24-31 | A new handler has no session, no subscriptions and has made no calls. |
| `CommandHandler.CompletionCommandHandler.OnDismissed` | IntelliTranslate/Intellisense/CompletionCommandHandler.cs:146 | The lambda's effect is `Dismissed` of the old state. `Valid()` is kept. |
| `CommandHandler.CompletionCommandHandler.DismissSession` | IntelliTranslate/Intellisense/CompletionCommandHandler.cs:105 | `Dismiss` is recorded and raises `Dismissed` at once. `Valid()` is kept. |
| `CommandHandler.CompletionCommandHandler.Filter` | IntelliTranslate/Intellisense/CompletionCommandHandler.cs:91-98 | The new state and calls are those of `FilterStep`. `Valid()` is kept. |
| `CommandHandler.CompletionCommandHandler.Cancel` | IntelliTranslate/Intellisense/CompletionCommandHandler.cs:100-108 | The result, new state and calls are those of `CancelStep`. `Valid()` is kept. |
| `CommandHandler.CompletionCommandHandler.Complete` | IntelliTranslate/Intellisense/CompletionCommandHandler.cs:110-125 | The result, new state and calls are those of `CompleteStep`. `Valid()` is kept. |
| `CommandHandler.CompletionCommandHandler.StartSession` | IntelliTranslate/Intellisense/CompletionCommandHandler.cs:127-151 | The result, new state and calls are those of `StartSessionStep`. `Valid()` is kept. |
| `CommandHandler.CompletionCommandHandler.Exec` | IntelliTranslate/Intellisense/CompletionCommandHandler.cs:38-89 | The `HRESULT`, new state and calls are those of `ExecStep`: pre-process, forward if unhandled (the lambda runs if the next handler dismisses the session), post-process on success. `Valid()` is kept. |

## Left out

- The HTTP request is not modelled: the URL, `WebUtility.UrlEncode`, `WebRequest`, its headers, `GetResponse` and `Close`. Its outcome is the input `Response`, and the query is the returned token text.
- Parsing the body (`JsonConvert.DeserializeObject<JArray>`) is not modelled. The body is given as a `Json` value. A body that is not a JSON array fails to parse or deserialises to null, and then the first index throws; either way it is `OtherError`.
- JSON objects are not modelled. Numbers and booleans are kept as their text in `Str`.
- `Display` renders a nested array as compact JSON text. Newtonsoft's `ToString()` renders it indented, so a synonym that is itself an array gives different text.
- The status bar (animation, progress, error text) is UI only and is left out. The `WebException` message is carried in `Response` but not shown.
- The Unicode category tables of `char.IsControl`, `IsPunctuation`, `IsSeparator`, `IsSymbol` and `IsWhiteSpace` are left abstract, as `CharClasses`.
- Tracking spans and tracking points are modelled as a start position and a length. Snapshot versions and `SpanTrackingMode` are left out.
- IDE session internals (`Start`, `Commit`, the broker) are recorded calls whose effect on the handler is a `Host` input. `SelectBestMatch` and `Recalculate` are recorded calls assumed never to raise `Dismissed`, so filtering never changes the handler's state. A null `SelectedCompletionSet`, a null session from the broker, or an empty `GetSessions` list would throw in .NET; they are assumed not to happen.
- The next command handler's effect on the handler is reduced to two inputs: its `HRESULT`, and whether it dismisses the current session. Other edits it makes, such as moving the caret, are not modelled. The `Host` answers stay fixed during one `Exec`, so the caret and line that post-processing sees are the ones pre-processing saw.
- `QueryStatus`, `GetTypeChar` marshalling (the typed character is part of `Command`), `AddCommandFilter`, `FindTokenSpanAtPosition` (unused), `Dispose`, and the MEF provider classes are COM/MEF glue and are not part of this model.
- Concurrency: the code has none, and the model has none.
