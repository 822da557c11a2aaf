/** The view-model of the quote widget: a card (`Task`) that holds the latest
    fetched quote and a favourite flag, the decision each iteration of its
    polling loop makes, and the board (`Model`) that appends cards on demand. */
module App {
  import opened Wrappers
  import opened Connector

  /** The heading a card shows while it has no quote yet. */
  const Placeholder: string := "fetching --->"

  /** The label of the board's only control. */
  const ButtonLabel: string := "fetch quotes of the day"

  // ---------------------------------------------------------------------------
  // The card
  // ---------------------------------------------------------------------------

  /** The messages a card handles. */
  datatype TaskMsg = Fetchit(payload: Payload) | ToggleFav

  /** The value of a card's fields. `status` is written once and never read. */
  datatype Card = Card(status: i32, fav: bool, info: Option<Payload>)

  /** The record both `Task::create` and the board's `DoIt` build. */
  const InitialCard: Card := Card(0, false, None)

  /** What handling one message does to a card's fields. */
  function Apply(c: Card, msg: TaskMsg): Card
  {
    match msg
    case Fetchit(p) => c.(info := Some(p))
    case ToggleFav => c.(fav := !c.fav)
  }

  lemma FetchitReplacesInfo(c: Card, p: Payload)
    ensures Apply(c, Fetchit(p)).info == Some(p)
    ensures Apply(c, Fetchit(p)).fav == c.fav
    ensures Apply(c, Fetchit(p)).status == c.status
  {
  }

  lemma ToggleFavFlips(c: Card)
    ensures Apply(c, ToggleFav).fav == !c.fav
    ensures Apply(c, ToggleFav).info == c.info
    ensures Apply(c, ToggleFav).status == c.status
  {
  }

  /** Toggling twice restores the card. */
  lemma ToggleFavInvolution(c: Card)
    ensures Apply(Apply(c, ToggleFav), ToggleFav) == c
  {
  }

  /** `Fetchit` and `ToggleFav` commute. */
  lemma FetchitCommutesWithToggleFav(c: Card, p: Payload)
    ensures Apply(Apply(c, Fetchit(p)), ToggleFav) == Apply(Apply(c, ToggleFav), Fetchit(p))
  {
  }

  /** A card object; `Update` changes its fields in place. */
  class Task {
    var status: i32
    var fav: bool
    var info: Option<Payload>

    function State(): Card
      reads this
    {
      Card(status, fav, info)
    }

    /** `Task::create`: a card with no quote, not a favourite. */
    constructor Create()
      ensures status == 0 && !fav && info == None
      ensures State() == InitialCard
    {
      status, fav, info := 0, false, None;
    }

    /** `Task::update`: handles one message and asks for a re-render. */
    method Update(msg: TaskMsg) returns (shouldRender: bool)
      modifies this
      ensures State() == Apply(old(State()), msg)
      ensures msg.Fetchit? ==> info == Some(msg.payload) && fav == old(fav) && status == old(status)
      ensures msg.ToggleFav? ==> fav == !old(fav) && info == old(info) && status == old(status)
      ensures shouldRender
    {
      match msg
      case Fetchit(p) =>
        info := Some(p);
        shouldRender := true;
      case ToggleFav =>
        fav := !fav;
        shouldRender := true;
    }

    /** One iteration of the polling loop, given what the fetch produced:
        a message is sent to the card only when there is a payload. */
    method Poll(r: Option<Payload>) returns (rendered: bool)
      modifies this
      ensures State() == Step(old(State()), r)
      ensures r.None? ==> State() == old(State())
      ensures rendered <==> r.Some?
    {
      rendered := false;
      match PollDecision(r)
      case Some(m) =>
        rendered := Update(m);
      case None =>
    }

    /** `Task::view`. */
    function View(): (v: CardView)
      reads this
      ensures v.heading == if info.None? then Placeholder else info.value.quote.author
      ensures v.container == if info.None? then "" else info.value.quote.body
    {
      ViewCard(State())
    }
  }

  // ---------------------------------------------------------------------------
  // Polling
  // ---------------------------------------------------------------------------

  /** The decision of one loop iteration: the message the card sends itself. */
  function PollDecision(r: Option<Payload>): (m: Option<TaskMsg>)
    ensures m.Some? <==> r.Some?
    ensures r.Some? ==> m == Some(Fetchit(r.value))
  {
    r.Map(p => Fetchit(p))
  }

  /** The effect of one loop iteration on the card. */
  function Step(c: Card, r: Option<Payload>): Card
  {
    match PollDecision(r)
    case None => c
    case Some(m) => Apply(c, m)
  }

  lemma StepWithoutResult(c: Card)
    ensures Step(c, None) == c
  {
  }

  lemma StepWithResult(c: Card, p: Payload)
    ensures Step(c, Some(p)) == Apply(c, Fetchit(p))
  {
  }

  /** The card after the loop has seen the fetch results `rs`, in order. */
  function PollAll(c: Card, rs: seq<Option<Payload>>): Card
    decreases |rs|
  {
    if rs == [] then c else PollAll(Step(c, rs[0]), rs[1..])
  }

  /** The last present value in `rs`, if any. */
  function LastSome<T>(rs: seq<Option<T>>): (r: Option<T>)
    ensures r.Some? <==> exists i :: 0 <= i < |rs| && rs[i].Some?
    ensures r.Some? ==> exists i :: 0 <= i < |rs| && rs[i] == r && forall j :: i < j < |rs| ==> rs[j].None?
    decreases |rs|
  {
    if rs == [] then None
    else
      var tail := rs[1..];
      assert forall i :: 0 <= i < |tail| ==> tail[i] == rs[i + 1];
      match LastSome(tail)
      case Some(v) => Some(v)
      case None => rs[0]
  }

  /** A present value at the end is the last present one. */
  lemma {:induction false} LastSomeOfPresentLast<T>(rs: seq<Option<T>>, v: T)
    ensures LastSome(rs + [Some(v)]) == Some(v)
    decreases |rs|
  {
    if rs != [] {
      assert (rs + [Some(v)])[1..] == rs[1..] + [Some(v)];
      LastSomeOfPresentLast(rs[1..], v);
    }
  }

  /** The last present poll result wins; polling never touches `fav` or `status`. */
  lemma {:induction false} PollAllLastWins(c: Card, rs: seq<Option<Payload>>)
    ensures PollAll(c, rs).info == if LastSome(rs).Some? then LastSome(rs) else c.info
    ensures PollAll(c, rs).fav == c.fav
    ensures PollAll(c, rs).status == c.status
    decreases |rs|
  {
    if rs != [] {
      PollAllLastWins(Step(c, rs[0]), rs[1..]);
    }
  }

  /** Results that are all absent leave the card as it was. */
  lemma PollAllWithoutResults(c: Card, rs: seq<Option<Payload>>)
    requires forall i :: 0 <= i < |rs| ==> rs[i].None?
    ensures PollAll(c, rs) == c
  {
    PollAllLastWins(c, rs);
  }

  /** However many fetches come back empty, a fresh card keeps its placeholder
      and shows the first payload that arrives after them. */
  lemma PlaceholderUntilFirstPayload(rs: seq<Option<Payload>>, p: Payload)
    requires forall i :: 0 <= i < |rs| ==> rs[i].None?
    ensures ViewCard(PollAll(InitialCard, rs)) == CardView(Placeholder, "")
    ensures ViewCard(PollAll(InitialCard, rs + [Some(p)])) == CardView(p.quote.author, p.quote.body)
  {
    PollAllWithoutResults(InitialCard, rs);
    PollAllLastWins(InitialCard, rs + [Some(p)]);
    LastSomeOfPresentLast(rs, p);
  }

  /** A payload by Ada reading "Think." is shown after one poll. */
  lemma OnePollShowsQuote()
    ensures
      var q := Quote(1, false, false, [], 0, 0, 0, "Ada", "ada", "Think.");
      ViewCard(PollAll(InitialCard, [Some(Payload("2024-01-01", q))])) == CardView("Ada", "Think.")
  {
  }

  // ---------------------------------------------------------------------------
  // The card's view
  // ---------------------------------------------------------------------------

  /** The two text regions of a card. */
  datatype CardView = CardView(heading: string, container: string)

  /** The heading: the author, or the placeholder while there is no quote. */
  function AuthorText(info: Option<Payload>): (s: string)
    ensures info.None? ==> s == Placeholder
    ensures info.Some? ==> s == info.value.quote.author
  {
    info.Map((p: Payload) => p.quote.author).UnwrapOr(Placeholder)
  }

  /** The body: the quote's text, or empty while there is no quote. */
  function BodyText(info: Option<Payload>): (s: string)
    ensures info.None? ==> s == ""
    ensures info.Some? ==> s == info.value.quote.body
  {
    info.Map((p: Payload) => p.quote.body).UnwrapOr("")
  }

  function ViewCard(c: Card): CardView
  {
    CardView(AuthorText(c.info), BodyText(c.info))
  }

  /** The heading reads as the placeholder exactly when there is no quote or
      the quote's author is itself the placeholder text. */
  lemma PlaceholderIff(info: Option<Payload>)
    ensures AuthorText(info) == Placeholder <==> info.None? || info.value.quote.author == Placeholder
  {
  }

  /** So the heading alone does not tell "no quote yet" from every quote. */
  lemma PlaceholderIsAmbiguous()
    ensures exists p :: AuthorText(Some(p)) == AuthorText(None)
  {
    var q := Quote(0, false, false, [], 0, 0, 0, Placeholder, "", "");
    assert AuthorText(Some(Payload("", q))) == AuthorText(None);
  }

  /** The view reads only `info`. */
  lemma ViewReadsOnlyInfo(c1: Card, c2: Card)
    requires c1.info == c2.info
    ensures ViewCard(c1) == ViewCard(c2)
  {
  }

  // ---------------------------------------------------------------------------
  // The board
  // ---------------------------------------------------------------------------

  /** The board's only message, sent by its button. */
  datatype Msg = DoIt

  /** What handling one message does to the board's entries. */
  function BoardApply(tasks: seq<Card>, msg: Msg): seq<Card>
  {
    match msg
    case DoIt => tasks + [InitialCard]
  }

  /** The entries after handling `msgs` in order. */
  function BoardRun(tasks: seq<Card>, msgs: seq<Msg>): seq<Card>
    decreases |msgs|
  {
    if msgs == [] then tasks else BoardRun(BoardApply(tasks, msgs[0]), msgs[1..])
  }

  /** Every message appends one default card and keeps the earlier entries in order. */
  lemma {:induction false} BoardRunAppends(tasks: seq<Card>, msgs: seq<Msg>)
    ensures |BoardRun(tasks, msgs)| == |tasks| + |msgs|
    ensures BoardRun(tasks, msgs)[..|tasks|] == tasks
    ensures forall i :: |tasks| <= i < |BoardRun(tasks, msgs)| ==> BoardRun(tasks, msgs)[i] == InitialCard
    decreases |msgs|
  {
    if msgs != [] {
      var next := BoardApply(tasks, msgs[0]);
      BoardRunAppends(next, msgs[1..]);
      assert next[..|tasks|] == tasks;
    }
  }

  /** After n clicks from creation the board holds and renders n cards. */
  lemma BoardAfterClicks(msgs: seq<Msg>)
    ensures |BoardRun([], msgs)| == |msgs|
    ensures forall i :: 0 <= i < |msgs| ==> BoardRun([], msgs)[i] == InitialCard
    ensures |ViewBoard(BoardRun([], msgs)).children| == |msgs|
  {
    BoardRunAppends([], msgs);
  }

  /** A `<Task />` element with no properties; it mounts a card of its own,
      built by `Task::create`. */
  datatype Element = TaskElement

  /** What the board renders: its button, then its child elements in order. */
  datatype BoardView = BoardView(button: string, children: seq<Element>)

  /** One child element per entry. */
  function Children(tasks: seq<Card>): (els: seq<Element>)
    ensures |els| == |tasks|
    decreases |tasks|
  {
    if tasks == [] then [] else [TaskElement] + Children(tasks[1..])
  }

  function ViewBoard(tasks: seq<Card>): BoardView
  {
    BoardView(ButtonLabel, Children(tasks))
  }

  /** The rendered children do not depend on what the entries hold. */
  lemma ViewBoardIgnoresEntries(t1: seq<Card>, t2: seq<Card>)
    requires |t1| == |t2|
    ensures ViewBoard(t1) == ViewBoard(t2)
  {
    var c1, c2 := Children(t1), Children(t2);
    assert forall i :: 0 <= i < |c1| ==> c1[i] == c2[i];
  }

  /** The board object; `Update` grows its entries in place. */
  class Model {
    var tasks: seq<Card>

    /** `Model::create`: a board with no cards. */
    constructor Create()
      ensures tasks == []
    {
      tasks := [];
    }

    /** `Model::update`: appends one default card and asks for a re-render. */
    method Update(msg: Msg) returns (shouldRender: bool)
      modifies this
      ensures tasks == BoardApply(old(tasks), msg)
      ensures tasks == old(tasks) + [InitialCard]
      ensures shouldRender
    {
      match msg
      case DoIt =>
        var task := Card(0, false, None);
        tasks := tasks + [task];
        shouldRender := true;
    }

    /** `Model::view`. */
    function View(): (v: BoardView)
      reads this
      ensures v.button == ButtonLabel
      ensures |v.children| == |tasks|
    {
      ViewBoard(tasks)
    }
  }
}
