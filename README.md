# DoTryCatch — a Dafny model

The DoTryCatch demo app shows one simulated fetch four ways. A data manager
holds a single flag, `isActive`, and exposes four getters. Each getter reports
the same success or failure:

- an optional (`"Title 1"` or `nil`);
- a `(title?, error?)` tuple;
- a `Result<String, Error>`;
- a throwing function.

A view model owns four display strings that start as `"Loading..."`. Its
`fetchAllTitles()` calls each getter and stores either the title or an
`"Error: "` message. Each screen row is coloured red when its string contains
`"Error"`, and green otherwise.

Files:

- `swift_types.dfy` (module `SwiftTypes`) holds the Swift shapes as datatypes:
  `Option`, `Result`, `Throwing` (a `throws` call that either returns or throws),
  and the single error `URLError(BadURL)`. Its description is the opaque constant
  `ErrDesc`.
- `strings.dfy` (module `Strings`) holds `Contains`, the substring test behind
  `String.contains`. It is proved equal to an explicit "occurs at some position"
  definition.
- `content_view.dfy` (module `ContentView`) holds the two classes
  `DoTryCatchDataManager` and `DoTryCatchViewModel`. It also has the row colour
  and `Expected`, which gives the four strings a fetch must produce for a given
  flag.

The getters are functions that read the manager. A function cannot change
state, so no getter can change `isActive`. `fetchAllTitles` is a method that
may modify only the view model. Its `do`/`catch` is a `match` on the
`Throwing` value. The manager is a `const` field, as in Swift's
`let manager`.

## Model

| member | source | states |
|---|---|---|
| `ContentView.DoTryCatchDataManager.constructor` | DoTryCatch/ContentView.swift:101 | a new manager starts with `isActive` false |
| `ContentView.DoTryCatchDataManager.GetTitle1` | DoTryCatch/ContentView.swift:104-106 | the optional is present exactly when `isActive` holds, and then it is `"Title 1"` |
| `ContentView.DoTryCatchDataManager.GetTitleTitle2` | DoTryCatch/ContentView.swift:109-111 | exactly one of `title` and `error` is filled; `title` is filled exactly when `isActive` holds, and then it is `"Title 2"`; a filled `error` is `URLError(.badURL)` |
| `ContentView.DoTryCatchDataManager.GetTitle3` | DoTryCatch/ContentView.swift:114-116 | the result is success exactly when `isActive` holds; success carries `"Title 3"` and failure carries `URLError(.badURL)` |
| `ContentView.DoTryCatchDataManager.GetTitle4` | DoTryCatch/ContentView.swift:119-125 | the call returns exactly when `isActive` holds; it returns `"Title 4"`, and otherwise it throws `URLError(.badURL)` |
| `ContentView.GettersAgree` | DoTryCatch/ContentView.swift:104-125 | all four getters succeed together or fail together |
| `ContentView.Expected` | DoTryCatch/ContentView.swift:66-97 | the reference outcome of a fetch has four strings; on failure each starts with `"Error: "` and the first is exactly `"Error: No Title"` |
| `ContentView.DoTryCatchViewModel.constructor` | DoTryCatch/ContentView.swift:59-64 | the four titles start as `"Loading..."`; the view model owns a fresh manager whose flag is false |
| `ContentView.DoTryCatchViewModel.FetchAllTitles` | DoTryCatch/ContentView.swift:66-97 | afterwards the titles are `"Title 1".."Title 4"` when the flag holds; otherwise they are `"Error: No Title"` followed by three copies of `"Error: " + ErrDesc`. The `"Unknown Error"` fallback is proved unreachable, the manager's flag is unchanged, and all four rows show green on success and red on failure |
| `ContentView.FetchToggleFetch` | DoTryCatch/ContentView.swift:66-97 | fetching, flipping the manager's flag and fetching again flips the flag and changes the colour of all four rows |
| `ContentView.FetchTwice` | DoTryCatch/ContentView.swift:66-97 | two fetches in a row leave identical titles |
| `ContentView.TitleRowColor` | DoTryCatch/ContentView.swift:48 | a row is red exactly when `"Error"` occurs at some position of its value, and green otherwise |
| `ContentView.RowsShareColor` | DoTryCatch/ContentView.swift:48 | every row of a fetch result has the same colour, green if and only if the flag holds |
| `ContentView.ToggleFlipsAllRows` | DoTryCatch/ContentView.swift:48 | flipping the flag between fetches flips the colour of all four rows together |
| `Strings.Contains` | DoTryCatch/ContentView.swift:48 | `s.contains(sub)`: `sub` is a prefix of `s` or of one of its suffixes, so a found `sub` is never longer than `s`; `ContainsIffOccurs` relates it to an occurrence at a position |
| `SwiftTypes.LocalizedDescription` | DoTryCatch/ContentView.swift:79 | the description of the one error, `URLError(.badURL)`, is the opaque `ErrDesc`; lines 87 and 95 read the same description |
| `Strings.ContainsIffOccurs` | DoTryCatch/ContentView.swift:48 | `Contains(s, sub)` holds if and only if `sub` occurs at some position of `s` |
| `Strings.ContainsOccurs` | DoTryCatch/ContentView.swift:48 | a substring that `Contains` finds occurs at some position |
| `Strings.OccursContains` | DoTryCatch/ContentView.swift:48 | an occurrence at any position is found by `Contains` |
| `Strings.ContainsPrefix` | DoTryCatch/ContentView.swift:48 | every string contains each of its prefixes |
| `Strings.ContainsFirstChar` | DoTryCatch/ContentView.swift:48 | a non-empty substring can only be found if the string contains its first character |

## Left out

- The SwiftUI views are not modelled: `ContentView.body`, `TitleRow.body`, the image, the button, styling and `#Preview` (DoTryCatch/ContentView.swift:10-56). They are layout only. The row colour test on line 48 is kept.
- `ObservableObject`, `@StateObject` and `@Published` change notification, and the `.onAppear` and button triggers, are not modelled. They are framework reactivity with no logic of their own, so the titles are plain mutable fields.
- Foundation's text for `URLError(.badURL).localizedDescription` is not modelled. It belongs to a library outside the repository, so it is the uninterpreted constant `ErrDesc`.
- Swift's exception machinery is not modelled. A `throws` call is an explicit `Throwing` value, and `do`/`catch` is a `match` on it.
- `Contains` compares Dafny characters, while Swift compares extended grapheme clusters. `Contains(s, "")` also holds for every `s`, while Foundation's `contains("")` is false. Neither difference affects any proved result here. The needle is always `"Error"`, every failure string starts with `"Error: "` (whatever the opaque `ErrDesc` holds), and no success string contains `'E'`.
