# Career guidance app: the verified core

This project models the deterministic logic of a client-side career guidance
web application and proves properties of it. The logic comes from the TypeScript
sources below.

- **Credential store** (`lib/auth.ts`): a user list and a session slot in
  local storage, with signup, login, logout, the current user and the
  authenticated flag.
- **Translations** (`lib/i18n.ts`):
  - the `LANGUAGES` table;
  - dotted-key lookup `t` through nested translation tables, answering with
    the key itself on any miss;
  - the saved-language read;
  - `loadTranslations`, which switches the current language or falls back to
    English depending on the outcome of its fetches.
- **Themes** (`lib/themes.ts`, `contexts/ThemeContext.tsx`):
  - the six application themes and the lookup that falls back to `light`;
  - the provider's two state cells (`themeId`, `theme`), the restore on mount
    and `setTheme`.
- **Generative-service client** (`lib/gemini.ts`):
  - the API-key guard;
  - the cleaning of code fences from a reply;
  - the two-turn preamble put in front of a chat history;
  - the mapping of every failure to one fixed message per call.
- **Résumé generator** (`lib/resume.ts`):
  - the palette fallback and the download file name;
  - the vertical cursor and page count as the document is laid out;
  - which section headers and how many entries the document carries, in
    which order;
  - where every header and entry lands relative to the page-break lines.
- **Profile editor** (`app/profile/page.tsx`):
  - comma-separated list boxes;
  - photo validation and removal;
  - add, remove and edit at an index;
  - the panel of the three most recent chat messages.
- **Chat screen** (`app/chat/page.tsx`):
  - restoring and saving the transcript;
  - sending a message, which appends the user message and then exactly one
    model message;
  - clearing the chat.

## How it is modelled

- Local storage is a class `Storage.LocalStorage` holding a `map` from keys to
  values. A value is plain text or one of the application's records. JSON
  text itself is not modelled.
- Parts of the source that change state in place are classes whose methods
  carry `modifies` clauses and state the whole new state. These are:
  - the stores;
  - the theme provider;
  - the translator's module state;
  - the chat session;
  - the résumé document.
- Expression-only code is modelled as functions: table lookups, trimming,
  splitting, fence stripping and the profile list handlers.
- The JavaScript built-ins the core relies on are defined once, in module
  `Text`, and the rest of the model uses them:
  - `Trim` stands for `String.prototype.trim`;
  - `Split` stands for `split` on one character;
  - `Join` stands for `Array.prototype.join`;
  - `RemoveAll` stands for a global `replace` of a literal pattern by "";
  - `CollapseSpace` stands for `replace(/\s+/g, "_")`;
  - `NatToString` stands for number-to-string conversion.
- The source's `forEach` loops and the `t` loop are `while` loops with
  invariants.
- The résumé document keeps a log of placements, with `(section or entry
  kind, page, y)` for each one. Its methods are proved against pure
  functions:
  - `ExpectedOutline`: the headers, in order;
  - `ExpectedEntries`: how many entries of each kind;
  - `Cursor`, `Headed`, `EntryStart`, `Flow`, `SectionFlow` and
    `DocumentFlow`: where the cursor and the page count stand after a
    header, an entry, a run of entries, a section and the whole document.
- Every section method takes the line-wrapping function, because the
  heights of its blocks and entries depend on it. That includes
  `AddEducation(p, wrap)`, whose entries have a fixed height.
- Some inputs the source does not control are parameters:
  - the presence of a browser window;
  - what fetches and the generative service return;
  - `Date.now()`;
  - the `FileReader` data URL;
  - the line count `splitTextToSize` gives;
  - whether the PDF library accepts the photo.

## Model

| member | source | states |
|---|---|---|
| Auth.FindByEmail | lib/auth.ts:12 | Returns the index of the first record with that email. Returns none exactly when no record has it. |
| Auth.FindCredentials | lib/auth.ts:25 | Returns the index of the first record equal in both email and password. Returns none exactly when no record matches both. |
| Auth.WithoutPassword | lib/auth.ts:29 | The session record keeps id, name and email. It has no password field. |
| Auth.SignupKeepsEmailsDistinct | lib/auth.ts:12-17 | Appending a user whose email is not in the list keeps all stored emails pairwise distinct. |
| Auth.LoginFindsTheOnlyRecord | lib/auth.ts:25 | With distinct emails, login for a stored email finds exactly that record when the password agrees, and nothing otherwise. |
| Auth.SignupLoginSucceedsIff | lib/auth.ts:16-18 | The login that follows signup, with `password \|\| ""`, succeeds exactly when the new user has a password. |
| Auth.Login | lib/auth.ts:22-34 | No window: returns undefined and changes nothing. On a match: the session slot holds the first matching record minus its password. Otherwise: "Invalid credentials" and the store is unchanged. |
| Auth.Signup | lib/auth.ts:7-20 | A taken email gives "User already exists" with the store unchanged. Otherwise the user is appended at the end. A user without a password is stored, but signup fails with "Invalid credentials" and no session is written. |
| Auth.Logout | lib/auth.ts:36-40 | Removes exactly the session key. With no window it does nothing. |
| Auth.GetCurrentUser | lib/auth.ts:42-46 | Null exactly when there is no window or no session key. Otherwise it is the stored session. |
| Auth.IsAuthenticated | lib/auth.ts:48-51 | True exactly when `getCurrentUser` is not null. |
| Auth.LoginLogoutSession | lib/auth.ts:22-40 | Between a login and the logout that follows, the user is signed in exactly when the credentials match a stored record or a session was already open. A failed login leaves an earlier session in place. After the logout the user is signed out. |
| I18n.Languages | lib/i18n.ts:1-25 | Every entry's code equals its key. English is present. |
| I18n.GetLanguageInfo | lib/i18n.ts:80-82 | A known code gives its own entry. Any other code gives English. The entry's code equals the argument exactly when the code is known. |
| I18n.GetSavedLanguage | lib/i18n.ts:76-78 | Returns the stored code when it is non-empty. Returns "en" in every other case: nothing stored, or an empty string stored. Never returns the empty string. |
| I18n.ResolveConcat | lib/i18n.ts:58-67 | Walking the path `a + b` is walking `a` and then `b` from where that walk ended. |
| I18n.MissIsFinal | lib/i18n.ts:60-66 | A miss at any segment makes the whole walk a miss. |
| I18n.ResolveNest | lib/i18n.ts:58-67 | A path through a table built along that path ends at the stored leaf. |
| I18n.TranslateNested | lib/i18n.ts:56-70 | A string filed under nested keys is what `t` returns for the keys joined with dots, when no key contains a dot. |
| I18n.TranslateNonString | lib/i18n.ts:69 | A path that misses, or ends at a non-string such as a sub-table, answers with the key itself. |
| I18n.Translator.constructor | lib/i18n.ts:27-28 | The module state starts on "en" with an empty translation table. |
| I18n.Translator.T | lib/i18n.ts:56-70 | The segment loop returns exactly the specification `Translate(translations, key)`. It is total, and never fails. |
| I18n.Translator.LoadTranslations | lib/i18n.ts:30-53 | Switches to `lang` and saves it only when its file loads. Otherwise English is adopted if a fallback fetch parses, and nothing changes if none does. The current language is always `lang`, "en" or the old value. |
| Themes.AppThemes | lib/themes.ts:20-117 | Six themes, each filed under its own id. The light theme is present. |
| Themes.GetTheme | lib/themes.ts:119-121 | A known id gives its own entry, and an unknown id gives `light`. The result is always a table member. Its id equals the argument exactly when the id is known. |
| Themes.GetThemeIdempotent | lib/themes.ts:119-121 | `getTheme(getTheme(x).id) == getTheme(x)`. |
| ThemeContext.ThemeProvider.constructor | contexts/ThemeContext.tsx:15-16 | Starts with id "light" and the light palette. |
| ThemeContext.ThemeProvider.RestoreOnMount | contexts/ThemeContext.tsx:18-25 | A saved id is adopted, with its palette, only when it is a table key. Otherwise both cells stay as they were. The palette stays a table member. |
| ThemeContext.UnknownIdNotRestored | contexts/ThemeContext.tsx:18-49 | `setTheme` with an unknown id keeps that id and shows the light palette. A later mount on the same storage falls back to "light" with the light palette. |
| ThemeContext.ThemeProvider.SetTheme | contexts/ThemeContext.tsx:44-49 | The id is stored verbatim while the palette is `getTheme(id)`, so an unknown id leaves `themeId != theme.id`. The raw id is written to storage. |
| Gemini.CleanResponse | lib/gemini.ts:54 | The cleaned text contains no "```" and has no surrounding white space. |
| Gemini.CleanLeavesPlainText | lib/gemini.ts:54 | Text with no backtick and no surrounding white space is unchanged by cleaning. |
| Gemini.NoJsonFenceAfterFence | lib/gemini.ts:54 | "```" followed by white space contains no "```json". |
| Gemini.CleanFencedJson | lib/gemini.ts:54 | "```json" + J + "```", with white space around it, cleans to J, for trimmed J without backticks. |
| Gemini.GetCareerRecommendations | lib/gemini.ts:13-15 | With an empty key it fails with "Gemini API Key is missing" and asks for nothing. Otherwise it succeeds exactly when the reply arrives and its cleaned text parses. Every other failure is the one recommendations error. |
| Gemini.FencedReplyParsesAlike | lib/gemini.ts:54-56 | A reply wrapped in a json fence gives the same outcome as the bare JSON. |
| Gemini.ChatHistory | lib/gemini.ts:89-101 | The history sent is the system prompt as a user turn, the acknowledgement naming the language as a model turn, then the caller's history unchanged. |
| Gemini.GetChatResponse | lib/gemini.ts:68-70 | With an empty key it fails with the missing-key error before the service is asked. Otherwise the service's answer, or the one chat error. |
| Resume.Palettes | lib/resume.ts:4-15 | Each palette is filed under its own name. Classic Blue is present, as (0, 51, 102). |
| Resume.PaletteCount | lib/resume.ts:4-15 | The table holds exactly the ten named palettes. |
| Resume.ResolvePalette | lib/resume.ts:23-24 | A known theme name gives its own palette. A missing, empty or unknown one gives Classic Blue. The result is always a table member. |
| Resume.FileName | lib/resume.ts:314 | The file name holds no white space and ends in "_Resume.pdf". |
| Resume.FileNameOfTwoWords | lib/resume.ts:314 | Two words separated by any run of white space become `first_last_Resume.pdf`. |
| Resume.FileNameOfOneWord | lib/resume.ts:314 | A name without white space is kept as it is. |
| Resume.OutlineInDocumentOrder | lib/resume.ts:101-311 | Headers come in the fixed order Summary, Education, Experience, Internships, Projects, Certifications & Courses, Skills & Languages, Extracurricular. Each appears at most once. |
| Resume.HeaderIffPresent | lib/resume.ts:102-304 | A header appears exactly when the string or list behind its section is non-empty. |
| Resume.EmptyProfileHasNoSections | lib/resume.ts:101-311 | An empty profile gives no section headers. |
| Resume.EntriesNeedHeader | lib/resume.ts:111-311 | A kind with at least one entry has its section header in the outline. |
| Resume.Threshold | lib/resume.ts:115 | The break line is 260 exactly for experience, internship and project entries, and 270 for all the others. |
| Resume.ResumeDoc.constructor | lib/resume.ts:18-21 | The cursor starts at 20 on page 1, with nothing placed. |
| Resume.ResumeDoc.AddText | lib/resume.ts:28-43 | The cursor advances by exactly `size / 2 + 2`. |
| Resume.ResumeDoc.NewPage | lib/resume.ts:50-51 | The page count grows by one and the cursor returns to 20. |
| Resume.ResumeDoc.AddSection | lib/resume.ts:46-61 | First +5. Past 270, a new page with the title at 20. Then a net +13 below the title, which is logged at or above the 270 line. The cursor ends at `Headed` of the old cursor, and the log grows by that one header. |
| Resume.ResumeDoc.StartEntry | lib/resume.ts:115 | Past its threshold an entry starts a new page at 20. Otherwise it starts where the cursor was. Either way the start is at or above the threshold. |
| Resume.ResumeDoc.AddEntry | lib/resume.ts:132-163 | The entry starts at 20 on the next page when the old cursor is past the kind's threshold, and at the old cursor otherwise. It is logged at that start, and the cursor ends the entry's height below it. |
| Resume.ResumeDoc.AddEntries | lib/resume.ts:114-126 | A `forEach` over a section's items places one entry per item, in order. The cursor ends at `Flow` of the old cursor over the heights. The log only grows at its end, and only that kind's count grows, by the number of items. |
| Resume.ResumeDoc.AddWrapped | lib/resume.ts:108 | A wrapped block advances the cursor by lines × 5 plus its gap. |
| Resume.ResumeDoc.AddHeader | lib/resume.ts:63-99 | Name (+13), +2, contact line (+6), then the social block: lines × 5 + 5, or just 5. The photo never moves the cursor. It is placed only when present, non-empty and accepted. |
| Resume.ResumeDoc.AddSummary | lib/resume.ts:101-109 | Adds the Summary header exactly when `about` is non-empty, and no entries. The cursor ends at `SectionFlow`: below the header by the wrapped text's lines × 5 + 5, with the lines counted in the 12 pt bold title font. Otherwise cursor, page and log are unchanged. |
| Resume.ResumeDoc.AddEducation | lib/resume.ts:111-127 | Adds the Education header when the list is non-empty, and one entry per item, each 12 high. No other kind changes. The cursor ends at `SectionFlow`. The old log is a prefix of the new one. An empty list changes nothing. |
| Resume.ResumeDoc.AddExperience | lib/resume.ts:129-164 | Adds the header when the list is non-empty, and one entry per item, each 10 + description lines × 5 + 4 high. The cursor ends at `SectionFlow`. The old log is a prefix of the new one. An empty list changes nothing. |
| Resume.ResumeDoc.AddInternships | lib/resume.ts:166-198 | Same as experience, under the Internships header: cursor at `SectionFlow`, the log extended at its end, nothing changed for an empty list. |
| Resume.ResumeDoc.AddProjects | lib/resume.ts:200-233 | Adds the header when the list is non-empty, and one entry per project: title 5, technologies 5 when there are any, description, then 3. The cursor ends at `SectionFlow`. The log is extended at its end. An empty list changes nothing. |
| Resume.ResumeDoc.AddCertifications | lib/resume.ts:235-260 | Adds one shared header when either list is non-empty, then one 5-high entry per certificate and then one per course. The cursor ends at `SectionFlow`. The log is extended at its end. Two empty lists change nothing. |
| Resume.ResumeDoc.AddSkillLine | lib/resume.ts:269-278 | A non-empty list adds one labelled line, lines × 5 + 2 high, after the break check: the cursor ends at `SkillLine`. An empty list leaves cursor, page and log unchanged. |
| Resume.ResumeDoc.AddSkills | lib/resume.ts:262-301 | Adds the header when any of the three lists is non-empty, and one line per non-empty list, in the order technical, soft, languages. The cursor ends at `SectionFlow`. The log is extended at its end. Three empty lists change nothing. |
| Resume.ResumeDoc.AddExtracurricular | lib/resume.ts:303-311 | Adds the header and a wrapped block (lines × 5 + 5, counted in the 12 pt bold title font) when the list is non-empty. The cursor ends at `SectionFlow`. Otherwise cursor, page and log are unchanged. |
| Resume.GenerateResume | lib/resume.ts:17-315 | The headers logged are exactly `ExpectedOutline(p)`, and the entries of each kind number `ExpectedEntries(p, kind)`. Every placement lies on an existing page, at a y between 20 and its break line. The final cursor is `DocumentFlow(p)`. The palette comes from the profile's theme. The file name is as above. |
| Resume.FlowPages | lib/resume.ts:114-126 | A run of entries never takes a page away and adds at most one page per entry. |
| Resume.FlowFits | lib/resume.ts:114-126 | Entries whose total height keeps the cursor at or above the threshold cause no page break. The cursor moves down by exactly their total. |
| Resume.SectionPages | lib/resume.ts:46-311 | A section adds at most one page for its header and one per entry. |
| Resume.DocumentPages | lib/resume.ts:17-311 | The résumé ends on page 1 at least, and at most on page 1 + the number of headers + the number of entries. |
| Resume.EmptyProfileOnePage | lib/resume.ts:17-311 | An empty profile's résumé is the header block alone. It ends on page 1, with the cursor just below that block. |
| ProfilePage.TrimAll | app/profile/page.tsx:46 | Same length, and each piece trimmed. |
| ProfilePage.ParseList | app/profile/page.tsx:46 | Gives one item more than there are commas, so an empty box gives `[""]`. Every item is trimmed and holds no comma. |
| ProfilePage.ParseJoinAfterSpace | app/profile/page.tsx:46 | Parsing white space followed by the `", "`-join of a listable list gives the list back. |
| ProfilePage.ParseJoinRoundTrip | app/profile/page.tsx:729-730 | Re-parsing the `join(", ")` display gives back a non-empty list whose items hold no comma and no surrounding white space. |
| ProfilePage.WithList | app/profile/page.tsx:44-47 | Only the named list changes. Every other list and every other field is kept. |
| ProfilePage.HandleArrayInput | app/profile/page.tsx:40-48 | The named field becomes the parsed box, with comma count + 1 items. Everything else is unchanged. |
| ProfilePage.HandlePhotoUpload | app/profile/page.tsx:68-92 | A file whose type starts with "image/" and whose size is at most 2 × 1024 × 1024 becomes the photo. Anything else, including every file that raises an alert, leaves the profile unchanged. |
| ProfilePage.HandleRemovePhoto | app/profile/page.tsx:95-100 | The photo is gone and every other field is kept. |
| ProfilePage.RemoveAt | app/profile/page.tsx:376 | Drops exactly the entry at `index` and keeps the others in order. An index out of range keeps the list. |
| ProfilePage.AddBlank | app/profile/page.tsx:386-389 | One blank entry at the end, and the earlier entries intact. |
| ProfilePage.UpdateAt | app/profile/page.tsx:418-420 | Same length. The entry at `index` is changed and every other entry is kept. |
| ProfilePage.EditExperience | app/profile/page.tsx:417-420 | One field of the experience at `index` is set. The other experiences and every other field are kept. |
| ProfilePage.EditProjectTechnologies | app/profile/page.tsx:578-582 | The project at `index` gets the parsed technologies box. Nothing else changes. |
| ProfilePage.Reverse | app/profile/page.tsx:123 | Same length, with element `i` taken from position `n - 1 - i`. |
| ProfilePage.RecentChats | app/profile/page.tsx:119-124 | Holds min(3, n) messages, the most recent first. |
| ChatPage.HistoryOf | app/chat/page.tsx:66-69 | One history entry per message, in order, each keeping its role and wrapping its content as a single text part. |
| ChatPage.ReplyContent | app/chat/page.tsx:73-90 | The model message is the reply, or the fixed apology on any error. |
| ChatPage.IsBlank | app/chat/page.tsx:51 | The input is blank exactly when it is all white space. |
| ChatPage.ChatSession.constructor | app/chat/page.tsx:14-17 | No messages, empty input, not loading, language "English". |
| ChatPage.ChatSession.LoadOnMount | app/chat/page.tsx:20-35 | A stored transcript is restored. With nothing or an empty string stored, the list is the single model welcome message with id "init". |
| ChatPage.ChatSession.SaveEffect | app/chat/page.tsx:37-41 | The transcript is written only when the list is non-empty. |
| ChatPage.ChatSession.SelectLanguage | app/chat/page.tsx:137 | Only the language changes. |
| ChatPage.ChatSession.SetInput | app/chat/page.tsx:235 | Only the input changes. |
| ChatPage.ChatSession.BeginSend | app/chat/page.tsx:49-71 | Blank input: nothing is appended and no request is made. Otherwise the request is the typed text plus the history of the list as it was before the user message. The user message is appended, the input cleared and the loading flag set. |
| ChatPage.ChatSession.CompleteSend | app/chat/page.tsx:73-93 | Exactly one model message is appended, and the loading flag is cleared. |
| ChatPage.ChatSession.HandleSend | app/chat/page.tsx:49-94 | Either nothing changes, or the user message and then exactly one model message are appended: the reply, or the apology. |
| ChatPage.ChatSession.ClearChat | app/chat/page.tsx:96-106 | A confirmed clear leaves exactly one model message naming the language, and removes the stored transcript. A declined clear changes nothing. |
| ChatPage.ClearThenSave | app/chat/page.tsx:37-41 | After a clear, the save effect writes the one-message list back, so the key is present again. |
| ChatPage.FirstVisit | app/chat/page.tsx:20-41 | On a first visit the welcome message is shown and saved at once. |
| Text.Trim | app/chat/page.tsx:51 | `trim()` gives a slice of the input with no white space at either end. |
| Text.TrimSurrounded | lib/gemini.ts:54 | Trimming white space + x + white space gives x, for trimmed x. |
| Text.TrimEmptyIffAllSpace | app/chat/page.tsx:51 | `s.trim() == ""` exactly when `s` is all white space. |
| Text.Split | lib/i18n.ts:57 | Gives one piece more than there are separators, and no piece holds the separator. |
| Text.JoinSplit | app/profile/page.tsx:46 | Joining the pieces of a split with the separator gives the string back. |
| Text.SplitJoin | lib/i18n.ts:57 | Splitting a join gives the pieces back, when none holds the separator. |
| Text.RemoveAll | lib/gemini.ts:54 | A global replace of a literal pattern by "" never lengthens the text. |
| Text.RemoveAllAbsent | lib/gemini.ts:54 | A global replace of an absent pattern changes nothing. |
| Text.RemoveFenceLeavesNone | lib/gemini.ts:54 | After every "```" is removed, none is left, even where a removal brings backticks together. |
| Text.CollapseSpace | lib/resume.ts:314 | `replace(/\s+/g, "_")` leaves no white space. |
| Text.CollapseSpaceIdentity | lib/resume.ts:314 | A string without white space is unchanged. |
| Text.CollapseSpaceRun | lib/resume.ts:314 | A maximal run of white space becomes a single underscore. |
| Text.CollapseKeepsWord | lib/resume.ts:314 | A prefix without white space passes through the replacement unchanged. |
| Text.NatToString | app/chat/page.tsx:54 | `Date.now().toString()` is a non-empty string of decimal digits. |

## Left out

- JSON serialisation of stored values. A stored value is a datatype variant, and a key only ever holds the variant its owner writes.
- Object-prototype names (such as "constructor") that JavaScript lookups in `LANGUAGES`, `APP_THEMES`, `THEMES` and translation tables would also find. The tables are maps with their own keys only.
- I18n.Translator.T: arrays inside a locale file are an opaque `JOther`. The source would index into them with numeric segments.
- The network, `fetch`, the generative service, model names and prompt wording. These are parameters: the service is a function from history and message to an optional answer, and the system prompt is a string parameter.
- `Date.now()`, the `FileReader` data URL, `confirm` and `alert`. These are parameters: times, the data URL, the confirmation flag, and the `PhotoAlert` value.
- Resume.ResumeDoc.AddHeader: the photo is a flag saying whether the PDF library accepted the image. Drawing, fonts, colours, upper-casing of titles and all horizontal layout are not modelled, and neither is the document's content.
- Resume.GenerateResume: the cursor is a real number, because `size / 2` is real division in JavaScript. Wrapped line counts come from an uninterpreted `Wrapper` function of the text, the width and the font in effect. The font is 12 pt bold for the summary and extracurricular blocks, which are wrapped right after a section title. It is 10 pt normal for every other wrapped text. No bound is claimed for the cursor after a wrapped block, because the source checks page breaks only before entries and headers.
- ChatPage.ChatSession.LoadOnMount: a stored value that is neither a transcript nor an empty string makes the source's `JSON.parse` throw inside the effect. The model leaves the list unchanged instead of modelling the exception.
- ChatPage.ChatSession.HandleSend: the asynchronous interleaving of renders is not modelled. The send is split into `BeginSend` and `CompleteSend`, and other events between the two are not modelled.
- The profile editor's edit handlers copy the array and then assign a field of the shared element object. The model updates values, so aliasing of that element with the previous state is not captured.
- Loading and saving the profile itself (`cga_profile_<email>`), the logout redirect, CSS variables, scrolling and storage quota errors.
- Optional (`undefined`) lists in a profile are modelled as empty lists.
