# Quote-of-the-day widget: a verified model of its view-model

The widget is a Yew single-page component pair written in Rust. A board
(`Model`) shows a button labelled "fetch quotes of the day"; each click
appends a card. A card (`Task`) runs a loop that waits two seconds, fetches a
quote of the day and, when the fetch produced a payload, sends itself a
`Fetchit` message that replaces its quote. A card's `update` also handles a
`ToggleFav` message that flips its favourite flag, though nothing in the code
sends that message. A card shows the author of its quote, or `fetching --->`
while it has none, and the quote's body, or nothing.

This project models that state machine in Dafny:

- `wrappers.dfy`: `Option` with the `map` and `unwrap_or` the card's view uses.
- `connector.dfy`: the `Quote` and `Payload` records, with Rust's `i32` as a newtype.
- `app.dfy` (module `App`):
  - the card as a value (`Card`) and as an object (`Task`) whose `Update`
    changes its fields in place;
  - one iteration of the polling loop as a pure decision (`PollDecision`, `Step`);
  - sequences of poll results (`PollAll`) and the last present result (`LastSome`);
  - the card's two text regions (`AuthorText`, `BodyText`, `ViewCard`);
  - the board as a value (`BoardApply`, `BoardRun`) and as an object (`Model`)
    whose `Update` grows its entries in place, and its view (`ViewBoard`).

A fetch result is an input of type `Option<Payload>`; what produces it is
outside the model.

Three behaviours of the code that the model keeps:

- The heading is the placeholder also for a quote whose author is the text
  `fetching --->` (crate/src/app.rs:83). `PlaceholderIff` states the exact
  condition, and `PlaceholderIsAmbiguous` exhibits such a quote.
- A rejected request is an `Err` (crate/src/connector.rs:54) that the loop
  unwraps (crate/src/app.rs:51), so the loop panics. The model covers only
  the `Ok(None)` and `Ok(Some(p))` outcomes, as absent and present inputs.
- The board's entries are records that nothing reads. Each rendered
  `<Task />` builds its own state with `Task::create` (crate/src/app.rs:140-142).
  The model keeps the two apart (`ViewBoardIgnoresEntries`).

## Model

| member | source | states |
|---|---|---|
| `App.Task.Create` | crate/src/app.rs:41-46 | a new card has status 0, is not a favourite and has no quote |
| `App.Task.Update` | crate/src/app.rs:60-71 | `Fetchit(p)` sets the quote to `p` and keeps `fav` and `status`; `ToggleFav` negates `fav` and keeps the quote and `status`; both ask for a re-render |
| `App.FetchitReplacesInfo` | crate/src/app.rs:62-65 | `Fetchit(p)` replaces the quote wholesale with `p` and leaves `fav` and `status` alone |
| `App.ToggleFavFlips` | crate/src/app.rs:66-69 | `ToggleFav` negates `fav` and leaves the quote and `status` alone |
| `App.ToggleFavInvolution` | crate/src/app.rs:66-69 | toggling twice gives back the original card |
| `App.FetchitCommutesWithToggleFav` | crate/src/app.rs:60-71 | a fetched quote and a toggle give the same card in either order |
| `App.PollDecision` | crate/src/app.rs:52-54 | a loop iteration sends a message exactly when the fetch produced a payload, and that message is `Fetchit` of that payload |
| `App.Task.Poll` | crate/src/app.rs:52-54 | one loop iteration leaves the card unchanged without a payload and re-renders exactly when there is one |
| `App.StepWithoutResult` | crate/src/app.rs:52-54 | an iteration without a payload leaves the card unchanged |
| `App.StepWithResult` | crate/src/app.rs:52-54 | an iteration with payload `p` acts as the message `Fetchit(p)` |
| `App.LastSome` | crate/src/app.rs:48-56 | the result is present iff some poll result is, and is then a present result with only absent results after it |
| `App.LastSomeOfPresentLast` | crate/src/app.rs:48-56 | a present result at the end is the last present one |
| `App.PollAllLastWins` | crate/src/app.rs:48-56 | after any sequence of poll results the quote is the last present payload, or the prior quote when none is present; `fav` and `status` never change |
| `App.PollAllWithoutResults` | crate/src/app.rs:48-56 | a sequence of absent results leaves the card exactly as it was |
| `App.PlaceholderUntilFirstPayload` | crate/src/app.rs:48-56 | a new card shows the placeholder and an empty body through any number of empty fetches, then the author and body of the first payload |
| `App.OnePollShowsQuote` | crate/src/app.rs:79-90 | one poll returning Ada's "Think." makes a new card show "Ada" and "Think." |
| `App.AuthorText` | crate/src/app.rs:83 | the heading is the placeholder without a quote, and the quote's author with one |
| `App.BodyText` | crate/src/app.rs:86 | the body region is empty without a quote, and the quote's body with one |
| `App.PlaceholderIff` | crate/src/app.rs:83 | the heading is the placeholder iff there is no quote or the author is the placeholder text |
| `App.PlaceholderIsAmbiguous` | crate/src/app.rs:83 | some quote makes the same heading as no quote |
| `App.ViewReadsOnlyInfo` | crate/src/app.rs:79-90 | two cards with the same quote render the same, whatever their `fav` and `status` |
| `App.Task.View` | crate/src/app.rs:79-90 | a card shows the placeholder and an empty body without a quote, and the quote's author and body with one |
| `App.Model.Create` | crate/src/app.rs:103-108 | a new board has no entries |
| `App.Model.Update` | crate/src/app.rs:110-122 | `DoIt` appends exactly one default card at the end and keeps every earlier entry in order |
| `App.BoardRunAppends` | crate/src/app.rs:110-122 | after any messages the earlier entries are a prefix, one default card follows per message, and nothing else |
| `App.BoardAfterClicks` | crate/src/app.rs:103-122 | n clicks on a new board give n default entries and n rendered cards |
| `App.Children` | crate/src/app.rs:140-142 | the board renders exactly one card element per entry |
| `App.ViewBoardIgnoresEntries` | crate/src/app.rs:140-142 | boards of equal length render the same, whatever their entries hold |
| `App.Model.View` | crate/src/app.rs:129-147 | the board renders its button label and one card element per entry |

## Left out

- The request and JSON decoding of `connector::fetchit` (crate/src/connector.rs:43-69): they are calls into the browser and serde. A fetch result is an input.
- The rejected-request path: it panics through `unwrap` in the loop (crate/src/app.rs:51), so there is no outcome to model.
- The `spawn_local` task, the two-second `Delay` and the unbounded loop: they are timers and cooperative scheduling. Single iterations and finite sequences of them are modelled as pure functions.
- Yew glue: `ComponentLink`, `send_self`, `change` (always `true`), `onclick`, markup and CSS classes. The views keep only the texts and the number and order of child elements.
- The link between a board entry and a rendered card: the code has none, and each `<Task />` builds its own state.
- Rust's ownership and borrowing: fields hold plain values, and the board keeps its card records by value.
- What the fields of `Quote` mean: they are carried as opaque data, and only `author` and `body` are read.
- crate/src/lib.rs: panic hook, logger and mounting to the page body.
