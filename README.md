# Chat session client and theme provider: a Dafny model

This project models the behaviour of the chat widget's session client and of the theme provider
from a Next.js procurement dashboard.

- **Normalize** (`normalize.dfy`): `normalizeAssistantMessage`. It runs a left-to-right scan that
  turns every literal two-character `\n` into a newline. Then it strips one pair of wrapping
  double quotes, once only.
- **JsText** (`js_text.dfy`): `String.prototype.trim`, which the submit guard relies on. It uses
  ECMAScript's WhiteSpace and LineTerminator code points.
- **Chat** (`chat.dfy`): the chat screen's state (`messages`, `input`, `isSending`, `loading`,
  `loadingMessageIndex`) as a value `ChatState`, plus its transitions as functions.
  - `handleSubmit` is split at its `await`. `Submitted` is the synchronous guard-and-append part.
    `Resolved` is the try/catch/finally continuation.
  - `Ticked` is one firing of the placeholder interval. `Typed` is the text area's `onChange`.
  - The class `ChatScreen` holds the same fields. Each of its methods is proved to perform exactly
    one of these transitions and to keep the invariant `WellFormed`: messages alternate user then
    assistant, at most one is pending, the flags move together and the placeholder index is in
    range.
- **Theme** (`theme.dfy`): the provider's `theme` and `mounted`. `localStorage` is a
  `map<string, string>` and the root's `dark` class is a boolean.
  - The mount effect, the sync effect, `setTheme`, `toggleTheme` and `useTheme` are modelled.
  - Pure transitions on `ThemeState` carry the lemmas. The class `ThemeProvider` is proved to
    perform them.

The agent call is a parameter: an `Outcome` that is either `Fail` (the call threw) or
`Ok(reply)`. Here `reply` is the string at `outputs[0].outputs[0].messages[0].message`, or `None`
when that path is missing or holds a falsy non-string value (`null`, `0`, `false`), which the
`||` treats the same way. Message ids, which come from `crypto.randomUUID()`, are opaque
parameters. The system's dark-mode preference is also a parameter.

## Model

| member | source | states |
|---|---|---|
| JsText.Trim | components/chat-screen.tsx:86 | `input.trim()` is empty exactly when every character is white space or a line terminator; a non-empty result starts and ends with a non-space character and is no longer than the input |
| JsText.IsTrimmable | components/chat-screen.tsx:86 | the characters `trim` removes are ECMAScript white space and line terminators; each is a single UTF-16 code unit, and space, tab, LF and CR are among them |
| JsText.Leading | components/chat-screen.tsx:86 | the prefix that `trim` removes is all white space and is maximal |
| JsText.Trailing | components/chat-screen.tsx:86 | the suffix that `trim` removes is all white space and is maximal |
| JsText.TrimIsInfix | components/chat-screen.tsx:86 | `trim` keeps one contiguous piece of the input and drops only white space on either side |
| JsText.TrimIdempotent | components/chat-screen.tsx:86 | trimming a trimmed string changes nothing, so stored user text is already trimmed |
| Normalize.ReplaceEscapedNewlines | components/chat-screen.tsx:52 | after the global replace no backslash is immediately followed by `n`; the result is never longer; its first character is the input's, or a newline when the input starts with `\n` |
| Normalize.ReplaceLength | components/chat-screen.tsx:52 | the replace shortens the text by exactly the number of positions where a literal `\n` starts, so every occurrence is replaced and none overlap |
| Normalize.ReplaceIdentity | components/chat-screen.tsx:52 | a text with no literal `\n` is returned unchanged |
| Normalize.OccurrencesZero | components/chat-screen.tsx:52 | having zero occurrences is the same as having no literal `\n` anywhere |
| Normalize.ReplaceIdempotent | components/chat-screen.tsx:52 | a second replace finds nothing to do |
| Normalize.ReplaceConcat | components/chat-screen.tsx:52 | the scan is local: when the left part does not end in a backslash, replacing in a concatenation is replacing in each part |
| Normalize.StripWrappingQuotes | components/chat-screen.tsx:55-57 | when the text starts and ends with `"`, putting one quote back on each side of the result gives the text again (a lone `"` becomes empty); otherwise the text is returned unchanged |
| Normalize.StripWrapped | components/chat-screen.tsx:55-57 | stripping undoes wrapping any text in one pair of quotes |
| Normalize.NormalizeAssistantMessage | components/chat-screen.tsx:50-60 | the normalised reply never contains a backslash followed by `n` and is never longer than the raw reply |
| Normalize.StripOnce | components/chat-screen.tsx:55-57 | quotes are stripped once, not recursively: `""x""` becomes `"x"`, which is still wrapped |
| Normalize.NormalizeTwice | components/chat-screen.tsx:50-60 | normalising again changes nothing unless the first result is itself wrapped in quotes |
| Normalize.NormalizeEscapedExample | components/chat-screen.tsx:52 | `Hello\nWorld` with a literal backslash-n becomes `Hello`, a real line break, `World` |
| Normalize.NormalizeQuotedExample | components/chat-screen.tsx:55-57 | `"quoted text"` becomes `quoted text` |
| Normalize.NormalizeNestedExample | components/chat-screen.tsx:55-57 | `"nested "quotes""` loses only its outer pair of quotes |
| Normalize.NormalizeLoneQuote | components/chat-screen.tsx:55-56 | a reply that is a single `"` both starts and ends with a quote and becomes empty |
| Chat.ReplyContent | components/chat-screen.tsx:118-137 | the assistant text is the fallback sentence when the call throws or the reply is missing or empty, and the normalised reply otherwise |
| Chat.Accepts | components/chat-screen.tsx:86-87 | a submit goes ahead exactly when the input is not all white space and no request is in flight |
| Chat.Initial | components/chat-screen.tsx:41-46 | the mounted screen has no messages, satisfies the conversation invariant and accepts no submit |
| Chat.Submitted | components/chat-screen.tsx:84-97 | a submit keeps the earlier messages as a prefix and adds one trimmed non-empty user message exactly when accepted; an accepted submit empties the input and raises both flags without touching the placeholder index, and a rejected one changes nothing |
| Chat.RequestFor | components/chat-screen.tsx:104-109 | the posted body has `output_type` and `input_type` `chat` and the conversation's `session_id`, and for an accepted submit its `input_value` is trimmed and non-empty |
| Chat.Resolved | components/chat-screen.tsx:118-141 | settling keeps the earlier messages as a prefix, appends exactly one assistant message, lowers both flags, resets the placeholder index and leaves the input alone |
| Chat.Ticked | components/chat-screen.tsx:77-79 | a tick changes only the placeholder index, keeps it in `[0, 6)`, and does nothing when not loading |
| Chat.Typed | components/chat-screen.tsx:278-287 | typing changes only the input, which becomes the typed text when no request is in flight; while sending the disabled text area ignores it and nothing changes |
| Chat.FallbackIsNormal | components/chat-screen.tsx:118-122 | normalising the fallback sentence leaves it unchanged, so the missing-reply path and the catch path show the same text |
| Chat.RejectedSubmitChangesNothing | components/chat-screen.tsx:86-87 | a submit of blank or whitespace-only input, or while a request is in flight, leaves messages, input and both flags unchanged |
| Chat.AcceptedSubmit | components/chat-screen.tsx:89-97 | an accepted submit appends exactly one user message holding the trimmed input, keeps the earlier messages as a prefix, empties the input, raises `isSending` and `loading` and leaves the placeholder index as it was |
| Chat.RequestMatchesUserMessage | components/chat-screen.tsx:104-109 | the posted `input_value` is the content of the user message just appended; `output_type` and `input_type` are `chat` and `session_id` is the conversation's |
| Chat.SubmitThenSettle | components/chat-screen.tsx:84-141 | an accepted submit and its settlement, success or failure, add exactly two messages, the user's then one assistant message, and leave both flags down and the placeholder index at 0 |
| Chat.InitialWellFormed | components/chat-screen.tsx:42-46 | the freshly mounted screen satisfies the conversation invariant |
| Chat.SubmitKeepsWellFormed | components/chat-screen.tsx:84-97 | the synchronous part of a submit keeps the invariant |
| Chat.SettleKeepsWellFormed | components/chat-screen.tsx:118-141 | settling the request in flight keeps the invariant |
| Chat.TickKeepsWellFormed | components/chat-screen.tsx:77-79 | an interval tick keeps the placeholder index in `[0, 6)` and the rest of the invariant |
| Chat.TypeKeepsWellFormed | components/chat-screen.tsx:278-287 | typing, which is ignored while the text area is disabled, keeps the invariant |
| Chat.StepKeepsWellFormed | components/chat-screen.tsx:71-142 | every event keeps the invariant |
| Chat.RunKeepsWellFormed | components/chat-screen.tsx:71-142 | every sequence of events from a well-formed state ends in a well-formed state |
| Chat.EveryUserMessageAnswered | components/chat-screen.tsx:84-141 | in a well-formed state each user message is followed at once by an assistant message, except the last one while its request is in flight |
| Chat.SubmitThenTicks | components/chat-screen.tsx:71-97 | after an accepted submit the placeholder index runs 0, 1, 2, 3, 4, 5, 0, ...: after n ticks it is n modulo 6 |
| Chat.TicksCycle | components/chat-screen.tsx:77-79 | while loading, the index after n ticks is the start index plus n modulo 6, and the messages do not change |
| Chat.TicksIdle | components/chat-screen.tsx:72-74 | while not loading, ticks change nothing and the index stays 0 |
| Chat.ChatScreen.constructor | components/chat-screen.tsx:41-46 | the screen starts with no messages, empty input, both flags down, index 0 and the given session id |
| Chat.ChatScreen.SetInput | components/chat-screen.tsx:278 | the input takes the typed text unless a request is in flight |
| Chat.ChatScreen.HandleSubmit | components/chat-screen.tsx:84-116 | performs the guarded synchronous submit and returns the posted body exactly when the submit is accepted |
| Chat.ChatScreen.CompleteRequest | components/chat-screen.tsx:118-141 | appends the one assistant message chosen by the outcome, lowers both flags and resets the index |
| Chat.ChatScreen.TickLoadingMessage | components/chat-screen.tsx:71-82 | one interval firing advances the index modulo 6 while loading and does nothing otherwise |
| Chat.ChatScreen.LoadingText | components/chat-screen.tsx:256 | the placeholder shown is one of the six loading messages, and the first one when not loading |
| Chat.Exchange | components/chat-screen.tsx:84-141 | on the component, an accepted submit and its settlement post the trimmed input and append the user message and then the assistant message |
| Theme.Toggled | components/theme-provider.tsx:40-42 | `toggleTheme` gives `"light"` exactly for `"dark"` and gives `"dark"` for every other value |
| Theme.StoredTheme | components/theme-provider.tsx:23 | reading storage gives a value exactly when the `theme` key is present |
| Theme.InitialTheme | components/theme-provider.tsx:25 | the initial theme is the stored value when present, otherwise `"dark"` exactly when the system prefers dark, otherwise `"light"` |
| Theme.UseTheme | components/theme-provider.tsx:56-61 | `useTheme` fails with its error exactly when no provider value is present, and otherwise returns that value |
| Theme.Unmounted | components/theme-provider.tsx:18-19 | before mount the theme is `"light"` and the provider is not mounted, so the sync effect leaves it unchanged |
| Theme.AfterMount | components/theme-provider.tsx:21-27 | the mount effect sets `mounted` and takes the stored theme when present, otherwise `"dark"` exactly when the system prefers dark and `"light"` otherwise; storage and the root are untouched |
| Theme.AfterSync | components/theme-provider.tsx:29-34 | the sync effect keeps the theme and `mounted`, does nothing before mount, and after mount leaves root and storage in agreement with the theme with no other key changed |
| Theme.ToggleTwice | components/theme-provider.tsx:40-42 | toggling twice is the identity on `"light"` and `"dark"` |
| Theme.ToggleTwiceOther | components/theme-provider.tsx:40-42 | any other stored value comes back from two toggles as `"light"` |
| Theme.SyncBeforeMount | components/theme-provider.tsx:30 | before mount the sync effect changes nothing |
| Theme.SyncAfterMount | components/theme-provider.tsx:29-34 | once mounted, after a sync the root has the `dark` class exactly when the theme is `"dark"`, and the new storage is the old storage with only the `theme` key set to the theme |
| Theme.SyncIdempotent | components/theme-provider.tsx:29-34 | a second sync changes nothing |
| Theme.MountThenSync | components/theme-provider.tsx:18-34 | after mounting and syncing, the theme is the stored one if there is one, otherwise the root is dark exactly when the system prefers dark |
| Theme.ReloadRestoresTheme | components/theme-provider.tsx:23-33 | a theme written by a sync is the theme a fresh provider mounts with, whatever the system prefers |
| Theme.ToggleFlipsRoot | components/theme-provider.tsx:29-42 | with any synced theme, toggling and syncing flips the root's `dark` class |
| Theme.ThemeProvider.constructor | components/theme-provider.tsx:18-19 | before any effect runs, the theme is `"light"` and the provider is not mounted |
| Theme.ThemeProvider.MountEffect | components/theme-provider.tsx:21-27 | the mount effect sets `mounted` and the initial theme and touches nothing else |
| Theme.ThemeProvider.SyncEffect | components/theme-provider.tsx:29-34 | the sync effect does nothing before mount; after mount it leaves the root class and storage in agreement with the theme |
| Theme.ThemeProvider.SetTheme | components/theme-provider.tsx:36-38 | `setTheme(t)` sets the theme to exactly `t` and may modify nothing else |
| Theme.ThemeProvider.ToggleTheme | components/theme-provider.tsx:40-42 | `toggleTheme()` replaces the theme by its toggle and may modify nothing else |
| Theme.ThemeProvider.Value | components/theme-provider.tsx:44-47 | the value the provider exposes carries its current theme and is accepted by `useTheme` |

## Left out

- The HTTP transport is not modelled: the endpoint URL, headers, the `x-api-key` value and environment defaulting (`config/api-routes.ts`). The call is reduced to its `Outcome`.
- A reply at the nested path that is truthy but not a string makes `.replace` throw inside the `try`. The catch then shows the fallback, so that case is folded into `Outcome.Fail`.
- Message ids come from `crypto.randomUUID()`. They are opaque parameters, and their uniqueness is not modelled.
- Asynchrony and React scheduling are not modelled. That covers the suspension at `await`, `setInterval` timing, when effects run, and late responses after unmount. Each interval firing, each effect and each settlement is an explicit step.
- `handleSubmit` reads `input` and `isSending` from the render that created it. Two submits fired before a re-render would both pass the guard. The model applies each submit to the latest state, as the `isSending` guard intends.
- Chat.ChatScreen.CompleteRequest: the effect that resets `loadingMessageIndex` to 0 once `loading` is false runs in the same step. In the source it runs after the next render.
- Strings are sequences of Unicode scalar values, whereas JavaScript strings are UTF-16 code units. No modelled operation behaves differently: the quote, the backslash, `n` and every character `trim` removes are single code units, and lone surrogates cannot occur in the model.
- The `console.log` and `console.error` calls are left out, because they are logging only.
- Rendering is left out: scrolling, animation, markdown rendering, the logo choice and the button states.
- Theme.ThemeContextValue: the `setTheme` and `toggleTheme` callbacks in the context value are left out of the datatype. The value carries only the theme, because the callbacks are modelled as the provider's methods.
- The dashboard page, the splash screen, the sidebar, the navbar, the attribution, the floating button, the modal and the view context are left out. They are presentation over constant data, or a boolean flag with a timer.
