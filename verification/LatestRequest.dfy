// The fetch of client_app/src/hooks/usePathfinderQuery.ts: every call of
// fetchRouteInternal runs up to its await, and its continuation runs when the
// answer arrives, in any order. The class is the hook's state; World adds the
// requests in flight and what was answered and written.
module LatestRequest {
  import opened RouterTypes

  datatype Outcome<+R> = Found(response: R) | NotFound(message: string) | Threw(reason: string)

  datatype QueryParams = QueryParams(
    chainFrom: string, chainTo: string, tokenFromDenom: string,
    senderAddress: string, receiverAddress: string)

  datatype Hook<+R> = Hook(
    requestId: nat, isLoading: bool, data: Option<R>, error: Option<string>, lastFetchedAt: Option<int>)

  // The amount is what Number.parseFloat makes of it, None standing for NaN.
  predicate Askable(params: Option<QueryParams>, enabled: bool, amount: Option<real>) {
    && params.Some? && enabled
    && params.value.chainFrom != "" && params.value.chainTo != "" && params.value.tokenFromDenom != ""
    && params.value.senderAddress != "" && params.value.receiverAddress != ""
    && amount.Some? && amount.value > 0.0
  }

  function Issued<R>(h: Hook<R>): Hook<R> {
    h.(requestId := h.requestId + 1, isLoading := true, error := None)
  }

  function Settled<R>(h: Hook<R>, id: nat, outcome: Outcome<R>, now: int): Hook<R> {
    if id != h.requestId then h
    else match outcome
      case Found(r) => h.(isLoading := false, data := Some(r), error := None, lastFetchedAt := Some(now))
      case NotFound(m) =>
        h.(isLoading := false, data := None, error := Some(if m == "" then "Failed to find route" else m))
      case Threw(e) => h.(isLoading := false, data := None, error := Some(e))
  }

  class Query<R(0)> {
    var requestId: nat
    var isLoading: bool
    var data: Option<R>
    var error: Option<string>
    var lastFetchedAt: Option<int>

    constructor ()
      ensures State() == Hook(0, false, None, None, None)
    {
      requestId, isLoading, data, error, lastFetchedAt := 0, false, None, None, None;
    }

    function State(): Hook<R>
      reads this
    {
      Hook(requestId, isLoading, data, error, lastFetchedAt)
    }

    /** fetchRouteInternal up to its await: the id of the request it sends, if it sends one. */
    method Fetch(params: Option<QueryParams>, enabled: bool, amount: Option<real>) returns (sent: Option<nat>)
      modifies this
      ensures Askable(params, enabled, amount) ==> State() == Issued(old(State())) && sent == Some(requestId)
      ensures !Askable(params, enabled, amount) ==> State() == old(State()).(data := None) && sent == None
    {
      sent := None;
      if params == None || !enabled {
        data := None;
        return;
      }
      var p := params.value;
      if p.chainFrom == "" || p.chainTo == "" || p.tokenFromDenom == "" || p.senderAddress == "" || p.receiverAddress == "" {
        data := None;
        return;
      }
      if amount == None || amount.value <= 0.0 {
        data := None;
        return;
      }
      requestId := requestId + 1;
      sent := Some(requestId);
      isLoading := true;
      error := None;
    }

    /** fetchRouteInternal after its await, in the call that sent request `id`. */
    method Settle(id: nat, outcome: Outcome<R>, now: int) returns (answer: Option<R>)
      modifies this
      ensures State() == Settled(old(State()), id, outcome, now)
      ensures answer == if id == old(requestId) && outcome.Found? then Some(outcome.response) else None
    {
      answer := None;
      match outcome {
        case Found(response) =>
          if id == requestId {
            data, error, lastFetchedAt := Some(response), None, Some(now);
            answer := Some(response);
          }
        case NotFound(message) =>
          if id == requestId {
            data, error := None, Some(if message == "" then "Failed to find route" else message);
          }
        case Threw(reason) =>
          if id == requestId {
            error := Some(reason);
            data := None;
          }
      }
      if id == requestId {
        isLoading := false;
      }
    }
  }

  // ---- Every order of issues, resets and answers ----

  datatype Event<+R> = Issue | Reset | Answer(id: nat, outcome: Outcome<R>, now: int)

  datatype World<R> = World(
    hook: Hook<R>, inFlight: set<nat>, answers: map<nat, Outcome<R>>, written: seq<nat>)

  function Initial<R>(): World<R> {
    World(Hook(0, false, None, None, None), {}, map[], [])
  }

  predicate Enabled<R>(w: World<R>, e: Event<R>) {
    e.Answer? ==> e.id in w.inFlight
  }

  function Next<R>(w: World<R>, e: Event<R>): World<R> {
    match e
    case Issue => w.(hook := Issued(w.hook), inFlight := w.inFlight + {w.hook.requestId + 1})
    case Reset => w.(hook := w.hook.(data := None))
    case Answer(id, outcome, now) =>
      World(Settled(w.hook, id, outcome, now), w.inFlight - {id}, w.answers[id := outcome],
            if id == w.hook.requestId then w.written + [id] else w.written)
  }

  predicate Legal<R>(w: World<R>, es: seq<Event<R>>)
    decreases |es|
  {
    es == [] || (Enabled(w, es[0]) && Legal(Next(w, es[0]), es[1..]))
  }

  function After<R>(w: World<R>, es: seq<Event<R>>): World<R>
    requires Legal(w, es)
    decreases |es|
  {
    if es == [] then w else After(Next(w, es[0]), es[1..])
  }

  predicate Increasing(s: seq<nat>) {
    forall i, j :: 0 <= i < j < |s| ==> s[i] < s[j]
  }

  // What is on screen is the answer to the request written last.
  ghost predicate ShowsLastWritten<R>(w: World<R>) {
    && (w.hook.data.Some? ==>
          && w.written != []
          && w.written[|w.written| - 1] in w.answers
          && w.answers[w.written[|w.written| - 1]] == Found(w.hook.data.value))
    && (w.hook.error.Some? ==> w.hook.data == None)
  }

  ghost predicate Inv<R>(w: World<R>) {
    && (forall id <- w.inFlight :: 0 < id <= w.hook.requestId)
    && (forall id <- w.inFlight :: id !in w.answers && id !in w.written)
    && (forall id <- w.answers :: 0 < id <= w.hook.requestId)
    && (forall id: nat :: 0 < id <= w.hook.requestId ==> id in w.inFlight || id in w.answers)
    && (forall id <- w.written :: id in w.answers)
    && Increasing(w.written)
    && (w.hook.isLoading <==> w.hook.requestId in w.inFlight)
    && (w.hook.requestId in w.answers ==> w.written != [] && w.written[|w.written| - 1] == w.hook.requestId)
    && ShowsLastWritten(w)
  }

  lemma StepKeeps<R>(w: World<R>, e: Event<R>)
    requires Inv(w) && Enabled(w, e)
    ensures Inv(Next(w, e))
    ensures w.written <= Next(w, e).written
  {
    if e.Answer? && e.id == w.hook.requestId {
      forall i | 0 <= i < |w.written|
        ensures w.written[i] < e.id
      {
        assert w.written[i] in w.written;
      }
      assert Increasing(w.written + [e.id]);
    }
  }

  lemma {:induction false} RunKeeps<R>(w: World<R>, es: seq<Event<R>>)
    requires Inv(w) && Legal(w, es)
    ensures Inv(After(w, es)) && w.written <= After(w, es).written
    decreases |es|
  {
    if es != [] {
      StepKeeps(w, es[0]);
      RunKeeps(Next(w, es[0]), es[1..]);
    }
  }

  /**
    * Latest request wins. After any run: the spinner shows exactly while the newest
    * request is out; the ids written only go up; once the newest has been answered, what
    * is shown is its answer or nothing; and an error is never shown beside data.
    */
  lemma LatestRequestWins<R>(es: seq<Event<R>>)
    requires Legal(Initial<R>(), es)
    ensures var w := After(Initial<R>(), es);
            && (w.hook.isLoading <==> w.hook.requestId in w.inFlight)
            && Increasing(w.written)
            && (w.hook.data.Some? && !w.hook.isLoading ==>
                  w.hook.requestId in w.answers && w.answers[w.hook.requestId] == Found(w.hook.data.value))
            && (w.hook.data.Some? && w.hook.isLoading ==>
                  w.written != [] && w.written[|w.written| - 1] < w.hook.requestId)
            && (w.hook.error.Some? ==> w.hook.data == None)
  {
    RunKeeps(Initial<R>(), es);
    var w := After(Initial<R>(), es);
    if w.hook.data.Some? {
      assert w.written[|w.written| - 1] in w.written;
    }
  }

  /** An answer to a superseded request changes nothing on screen; the newest one's always does. */
  lemma OnlyNewestIsWritten<R>(es: seq<Event<R>>, e: Event<R>)
    requires Legal(Initial<R>(), es) && e.Answer? && Enabled(After(Initial<R>(), es), e)
    ensures var w := After(Initial<R>(), es);
            && (e.id == w.hook.requestId <==> Next(w, e).hook != w.hook)
            && (e.id == w.hook.requestId <==> Next(w, e).written != w.written)
            && (e.id < w.hook.requestId ==> Next(w, e).hook == w.hook)
  {
    RunKeeps(Initial<R>(), es);
    var w := After(Initial<R>(), es);
    assert w.hook.isLoading <==> w.hook.requestId in w.inFlight;
    if e.id == w.hook.requestId {
      assert |Next(w, e).written| == |w.written| + 1;
    }
  }

  predicate AnswersOnly<R>(es: seq<Event<R>>) {
    forall i :: 0 <= i < |es| ==> es[i].Answer?
  }

  ghost predicate FoundLater<R(!new)>(es: seq<Event<R>>, id: nat) {
    exists i :: 0 <= i < |es| && es[i].Answer? && es[i].id == id && es[i].outcome.Found?
  }

  /**
    * A reset clears the screen but does not supersede the request in flight: of the
    * answers that arrive after it, exactly a successful one to the newest request puts
    * data back.
    */
  lemma {:induction false} ResetDoesNotCancel<R(!new)>(w: World<R>, es: seq<Event<R>>)
    requires Inv(w) && w.hook.data == None
    requires AnswersOnly(es) && Legal(w, es)
    ensures After(w, es).hook.data.Some? <==> FoundLater(es, w.hook.requestId)
    decreases |es|
  {
    if es != [] {
      var e := es[0];
      StepKeeps(w, e);
      var w' := Next(w, e);
      if w'.hook.data == None {
        ResetDoesNotCancel(w', es[1..]);
        FoundLaterTail(es, w.hook.requestId);
      } else {
        SettledStays(w', es[1..]);
        assert es[0].id == w.hook.requestId;
      }
    }
  }

  /** A run in which the form is cleared and the answer then puts data back. */
  lemma ClearedFormFillsAgain<R>(r: R)
    ensures var es := [Issue, Reset, Answer(1, Found(r), 0)];
            && Legal(Initial<R>(), es) && After(Initial<R>(), es[..2]).hook.data == None
            && After(Initial<R>(), es).hook.data == Some(r)
  {
    var es: seq<Event<R>> := [Issue, Reset, Answer(1, Found(r), 0)];
    var w := Next(Next(Initial<R>(), Issue), Reset);
    assert es[1..] == [Reset, es[2]] && es[1..][1..] == [es[2]];
    assert es[..2] == [Issue, Reset] && es[..2][1..] == [Reset] && es[..2][1..][1..] == [];
    assert After(w, es[..2][1..][1..]) == w;
    assert Legal(w, [es[2]]) && After(w, [es[2]]).hook.data == Some(r);
  }

  lemma FoundLaterTail<R(!new)>(es: seq<Event<R>>, id: nat)
    requires es != [] && AnswersOnly(es) && (es[0].id == id ==> !es[0].outcome.Found?)
    ensures FoundLater(es, id) <==> FoundLater(es[1..], id)
  {
    if FoundLater(es, id) {
      var i :| 0 <= i < |es| && es[i].Answer? && es[i].id == id && es[i].outcome.Found?;
      assert es[1..][i - 1] == es[i];
    }
    if FoundLater(es[1..], id) {
      var i :| 0 <= i < |es[1..]| && es[1..][i].Answer? && es[1..][i].id == id && es[1..][i].outcome.Found?;
      assert es[i + 1] == es[1..][i];
    }
  }

  // With the newest request answered, no other answer changes what is shown.
  lemma {:induction false} SettledStays<R>(w: World<R>, es: seq<Event<R>>)
    requires Inv(w) && !w.hook.isLoading
    requires AnswersOnly(es) && Legal(w, es)
    ensures After(w, es).hook == w.hook
    decreases |es|
  {
    if es != [] {
      StepKeeps(w, es[0]);
      SettledStays(Next(w, es[0]), es[1..]);
    }
  }
}
