# FrontEnd-R3 dashboard: a Dafny model

This project models the core of a single-page sales and product dashboard. The
dashboard has three features:

- a sales prediction for a store, department and date;
- a product-image classification;
- a list of product recommendations.

There are two parts:

- **The API access layer** (`src/services/apiService.js`). This covers the
  request each operation sends to its backend and how `handleResponse` turns a
  response into a result or an `ApiError`. It also covers how failures reach
  the caller.
- **The dashboard component** (`src/App.jsx`). This covers its state and the
  handlers behind the buttons and the file picker. The reference data it loads
  on mount is modelled too: stores 1 to 45, the department list and the date
  range.

The modules follow that structure:

| module | file | models |
|---|---|---|
| `Base` | base.dfy | `Option`, `Result`, `map` and `filter` on sequences |
| `JsText` | js_text.dfy | `trim`, `split` on one character, `includes`, `indexOf` |
| `JsNumber` | js_number.dfy | `parseInt` without a radix, `String(n)` of an integer |
| `JsValue` | js_value.dfy | JSON values plus `undefined`, truthiness, `a \|\| b`, property reads, `String(v)` |
| `ApiService` | api_service.dfy | `ApiError`, `handleResponse`, the eight service operations |
| `CsvNames` | csv_names.dfy | the recommendation handler's CSV parsing, shuffle and selection |
| `App` | app.dfy | the component state, its handlers and whole sessions of user actions |

Everything the component waits for is an input to the model:

- a `Transport` is what a `fetch` came back with: a response, or a connection
  that never completed;
- a `CsvFetch` is the result of loading the bundled CSV file;
- a `Draw` holds the three scaled `Math.random()` values a prediction uses;
- a sequence of naturals gives the random choices the shuffle makes.

Each asynchronous handler is split into two halves. The first is what runs on
the click: a `Step` that is either already settled or pending. The second is
what runs once the awaited work completes. A `Handle…` function composes the
two halves.

Some behaviours of the code worth stating:

- **A transport failure is not an `ApiError`.** Each operation's `catch` logs
  the error and rethrows it as it is. So a connection failure reaches the
  caller as the runtime's own error (`NetworkError` here), with no status.
- **`handleResponse` has three more failure cases.**
  - A JSON content type with a body that is not JSON rejects with a
    `SyntaxError`, whatever the status.
  - A non-2xx JSON body that is `null` rejects with a `TypeError`, because
    `data.detail` is read from `null`.
  - A non-2xx JSON body whose `detail` is an object with its own `toString`
    field, or an array holding one, rejects with a `TypeError`. The `Error`
    constructor cannot turn such a value into a message.
- **A failed classification clears the previous result.** The handler sets
  `classificationResult` to `null` before it calls the service, so it does not
  leave the previous result on screen.
- **The component is the variant that fabricates its results.**
  - The prediction is computed from random draws.
  - The recommendations are at most five rows of a static CSV, shuffled.
  - The prediction and recommendation buttons share one `loading` flag. So one
    feature in flight disables the other.
  - The recommendation handler checks no input before it starts.

## Model

| member | source | states |
|---|---|---|
| `ApiService.HandleResponse` | src/services/apiService.js:14-28 | A response succeeds exactly when its status is 2xx and, for a JSON content type, its body parses. On success the value is the parsed JSON, or the text for any other content type. A JSON content type with an unparsable body is a `SyntaxError`. A non-2xx text body gives an `ApiError` with the fallback message, the status and the text. A non-2xx JSON `null` gives a `TypeError`, and so does a truthy `detail` whose string conversion throws. Any other non-2xx JSON value gives an `ApiError` carrying the status and the value; its message is the string form of a truthy `detail`, else the fallback. |
| `ApiService.DetailBecomesMessage` | src/services/apiService.js:19-24 | A non-2xx JSON object with a non-empty string field `detail`, whatever its other fields, is rejected with exactly that string as the message, plus the status and the body. |
| `ApiService.Outcome` | src/services/apiService.js:33-39 | An unreachable server gives `NetworkError`, which is not an `ApiError`. A delivered response gives what `handleResponse` makes of it. No failure ever becomes a success. |
| `ApiService.GetValidData` | src/services/apiService.js:32-40 | Sends a GET of `/valid-data` to the recommender, with no body. It settles to the normalised outcome. |
| `ApiService.PredictSales` | src/services/apiService.js:43-62 | Sends a JSON POST of `/predict-sales` whose body has exactly the keys `store`, `dept` and `date`. `store` and `dept` are the numbers `parseInt` reads from the inputs, or `null` exactly when it reads none. `date` is passed through unchanged. |
| `ApiService.PredictSalesSendsSelection` | src/services/apiService.js:50-54 | A store and a department given as the decimal text of integers reach the service as those same integers. |
| `ApiService.ClassifyImage` | src/services/apiService.js:65-80 | Sends a POST of `/classify-image` to the classifier, with the file under the multipart field `file`. |
| `ApiService.GetRecommendations` | src/services/apiService.js:83-102 | Sends a JSON POST of `/recommend` with exactly the keys `user_id`, `product_history` and `n_recommendations`. A falsy id or history is sent as `null`. A falsy count is sent as 5, so the count sent is always truthy. |
| `ApiService.GetRecommendationsByUser` | src/services/apiService.js:105-110 | Sends the user id, or `null` if falsy. `product_history` is `null`. The count is the argument, or 5 if it is falsy. |
| `ApiService.GetRecommendationsByHistory` | src/services/apiService.js:113-118 | Sends the history, or `null` if falsy. `user_id` is `null`. The count is the argument, or 5 if it is falsy. |
| `ApiService.GetPopularRecommendations` | src/services/apiService.js:121-125 | Sends `null` for both the user id and the history. The count is the argument, or 5 if it is falsy. |
| `ApiService.ModesAreRecommendations` | src/services/apiService.js:105-125 | Each mode wrapper makes the same call as `getRecommendations` with the matching params object. The wrappers' own default of 5 changes nothing. |
| `ApiService.NoParamsArePopular` | src/services/apiService.js:83-94 | `getRecommendations()` with no argument sends no user, no history and a count of 5, the same call as `getPopularRecommendations()`. |
| `ApiService.HealthCheck` | src/services/apiService.js:128-136 | Sends a GET of `/` to the recommender, with no body. |
| `JsValue.Or` | src/services/apiService.js:91-93 | `a \|\| b` is one of its operands. It is truthy exactly when either operand is, it is the left operand whenever that one is truthy, and it is the right operand whenever the left one is falsy. |
| `JsValue.Property` | src/services/apiService.js:21 | Reading a property fails exactly on `null` and `undefined`. On an object it gives the field, or `undefined` when the field is absent. |
| `JsText.IncludesIffOccurs` | src/services/apiService.js:16 | `includes` holds exactly when the substring occurs at some position. |
| `JsNumber.ParseIntToString` | src/services/apiService.js:51-52 | `parseInt` of the decimal text `String(n)` of an integer gives that integer back. The model proves it for every integer; in JavaScript it holds for the safe integers, below 2^53 in magnitude. |
| `JsNumber.ParseInt` | src/services/apiService.js:51-52 | `parseInt` of empty or all-whitespace text is `NaN`. A number it reads is negative only behind a minus sign, and a minus sign never yields a positive number. |
| `JsNumber.ParseIntSkipsWhiteSpace` | src/services/apiService.js:51-52 | Whitespace in front of the text does not change what `parseInt` reads. |
| `JsNumber.ParseIntReadsLeadingDigits` | src/services/apiService.js:51-52 | `parseInt` reads the leading decimal digits and ignores the rest from the first non-digit on, unless a lone `0` followed by `x` makes a hexadecimal prefix. |
| `JsValue.ToString` | src/services/apiService.js:5-7 | The message `new Error` keeps. It throws exactly for an object with its own `toString` field or an array that holds one, directly or inside nested arrays. Otherwise it gives `"undefined"` and `"null"` for those values, `"true"` or `"false"` for a boolean, a string unchanged, `"[object Object]"` for an object, for any other array its element texts joined with commas, with `null` and `undefined` elements empty, and for a number a text that `parseInt` reads back as that number. |
| `JsValue.ArrayOfStringsSplitsBack` | src/services/apiService.js:20-21 | An array `detail` of strings without commas becomes a message that splits back at the commas into exactly those strings. |
| `ApiService.ShadowedToStringRejects` | src/services/apiService.js:19-24 | A non-2xx JSON object whose `detail` is an object with its own `toString` field rejects with a `TypeError`, not an `ApiError`. |
| `JsNumber.ReadDigits` | src/services/apiService.js:51-52 | The digit reader gives `NaN` exactly when the text does not start with a digit of the radix. |
| `JsText.Trim` | src/App.jsx:174 | The result of `trim` is a slice of the input. Only whitespace lies outside that slice, and the slice neither starts nor ends with whitespace. |
| `JsText.TrimUnique` | src/App.jsx:174 | Any string with the shape just described is the one `trim` returns. |
| `JsText.TrimEmptyIffBlank` | src/App.jsx:174 | A line trims to the empty string exactly when it is all whitespace. |
| `JsText.JoinSplit` | src/App.jsx:174 | Joining the pieces of a `split` back together with the separator gives the original text. |
| `JsText.SplitJoin` | src/App.jsx:185 | Splitting pieces that were joined with a separator they do not contain gives back the pieces. |
| `JsText.IndexOf` | src/App.jsx:178 | `indexOf` is -1 exactly when the element is absent. Otherwise it is a position holding the element, with no earlier occurrence. |
| `CsvNames.NameColumn` | src/App.jsx:177-181 | No lines at all is one failure. A header without a `name` field is the other. Otherwise the result is the position of the first `name` field. |
| `CsvNames.NamesOfLines` | src/App.jsx:177-187 | The failures are those of `NameColumn`. On success there is one item per data line, in order, holding that line's trimmed field at the `name` position, or no name when the line is shorter. |
| `CsvNames.NoLinesIffWhiteText` | src/App.jsx:174-177 | Reading the CSV fails for lack of lines exactly when the whole text is whitespace, the empty text included. |
| `CsvNames.BlankLineIgnored` | src/App.jsx:174 | Inserting a whitespace-only line between two lines of the text changes neither the kept lines nor anything read from the CSV. |
| `CsvNames.ShufflePermutes` | src/App.jsx:190 | Whatever the random choices, the shuffle keeps every item exactly as many times as it occurs. |
| `CsvNames.ShuffleZeroIsIdentity` | src/App.jsx:190 | Choices of zero keep the original order. |
| `CsvNames.RecommendationsFromItems` | src/App.jsx:190-196 | The selection has min(5, number of items) entries, numbered 0, 1, … in order. Its items are drawn from the extracted items without repetition beyond their multiplicity. With five items or fewer, it holds every item. |
| `App.ValidStores` | src/App.jsx:56 | The store list has 45 entries, strictly ascending, and holds exactly the numbers 1 to 45. |
| `App.LoadValidData` | src/App.jsx:53-75 | The reference data offers exactly the stores 1 to 45 and 81 departments, and has the fixed date range. |
| `App.Initial` | src/App.jsx:31-49 | The component starts with empty selections, no prediction, an empty chart, no recommendations, no classification result or file, nothing loading and no error. |
| `App.PredictSubmit` | src/App.jsx:87-92 | If any of store, department or date is empty, the click settles at once. It changes only the error, which becomes the fill-in message. Otherwise it becomes pending with `loading` set and the error cleared. |
| `App.HandlePredictSales` | src/App.jsx:86-137 | A missing field changes only the error. Otherwise the handler ends with no error and nothing loading. The prediction echoes the selections. The stored base, recent trend and month factor are the drawn values, and the day-of-week factor is 1. The adjusted prediction is base × month factor. The final prediction is the mean of the base, adjusted and trend values. The bounds are 0.95 and 1.1 times the final value. The chart holds exactly the base, adjusted and final points, labelled and in that order. Nothing else changes. |
| `App.PendingPredictionBlocksButtons` | src/App.jsx:354-355 | While a prediction is pending, neither the prediction button nor the recommendation button is enabled, since they share the flag. |
| `App.PendingClassificationBlocksButton` | src/App.jsx:422-424 | While a classification is pending, its button is disabled by its own loading flag. |
| `App.PredictionWithinBounds` | src/App.jsx:98-107 | With draws in the documented ranges, the adjusted prediction is at least the base one. The final prediction is positive and lies strictly between its lower and upper bounds. |
| `App.ClassifySubmit` | src/App.jsx:140-144 | With no file selected the click changes nothing. Otherwise it becomes pending, with the classification loading, the error cleared and the previous result cleared. |
| `App.HandleClassifyImage` | src/App.jsx:140-155 | With no file, nothing changes. Otherwise the handler ends with the classification not loading and changes nothing but the result and the error. A successful upload shows exactly the value the service returned, with no error. Any failure shows the classification error with an empty result. No error implies the server answered with a 2xx status. |
| `App.FileChange` | src/App.jsx:413-416 | Picking a file, or cancelling, which yields none, replaces the selection and clears the classification result. Nothing else changes. |
| `App.CsvItems` | src/App.jsx:167-187 | Items are read exactly when the CSV response arrived with an ok status and its text has lines and a `name` column. They are then exactly the extracted names. |
| `App.HandleGetRecommendations` | src/App.jsx:158-203 | The handler always ends with nothing loading, and changes nothing but the recommendations and the error. It ends without error exactly when items were read. On failure it shows the CSV error and keeps the previous recommendations. On success it shows min(5, number of items) recommendations, numbered from 0, drawn from the items, and all of them when there are five or fewer. |
| `App.RunKeepsWellFormed` | src/App.jsx:86-203 | After any sequence of completed user actions, a well-formed state stays well-formed. Nothing is loading. The error is one of the three handler messages. The chart is empty or the three labelled points. There are at most five recommendations, numbered from 0. |
| `App.SessionsStayWellFormed` | src/App.jsx:31-49 | Every session that starts from the initial state is well-formed after each completed action. |

## Left out

- Networking. Base URLs, headers, `fetch`, and `console.error` logging are left out. The transport outcome is an input.
- The `await` delays of ten seconds are left out. Each handler is split into its click half and its completion half instead.
- Interleavings are left out: a handler settling while another one is pending. Sessions are modelled as sequences of completed actions, and the shared `loading` flag is modelled through the disabled buttons.
- Floating point is left out: the prediction arithmetic is on reals. `Math.random()` is left out too: its scaled values are an input, as are the shuffle's choices.
- `App.HandlePredictSales`: the prediction echoes the store and department as the selected text, not `Number(...)` of it. The chart keeps only the label and the value of each point.
- `items.sort(() => 0.5 - Math.random())` is modelled as a sequence of picks, each taken modulo the number of items left. The order that an engine's sort algorithm produces with a random comparator is not modelled. The model proves only that the result is a permutation.
- `App.LoadValidData`: the departments are stated only by their count of 81. The date range is passed through as text with no ordering stated. The `catch` of the loader is unreachable, because nothing in it throws.
- `JSON.parse` of a response body is an input (`Response.json`). Numbers are integers, so `NaN`, fractions and exponent forms are not modelled, apart from `parseInt`'s `NaN`, which becomes `null` in a JSON body.
- `JsNumber.ParseIntToString`: numbers are unbounded integers, so `parseInt`, `String(n)` and the numbers sent in request bodies are not limited to double precision. JavaScript writes `String(n)` in exponent form from 1e21 on and rounds digits beyond 2^53, so outside the safe integers the round trip is a property of the model only.
- Strings are sequences of characters. UTF-16 surrogate pairs are not modelled.
- Rendering is left out: JSX, `toFixed` formatting, the tab state, and the user id and history fields, which the recommendation handler of this component never reads.
- `src/components/Dashboard/Dashboard.jsx` and `src/components/Navigation/Navbar.jsx` are presentation only and are not part of this model.
