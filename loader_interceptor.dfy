/** The HTTP interceptor that drives the global loading indicator: a counter of
    requests in flight, the show / update / hide calls it makes on the loader
    service, and the ordered table that picks the message to display. */
module LoaderInterceptor {
  import opened Common

  /** One row of the message table: a URL fragment or an HTTP method name,
      and the text shown while such a request runs. */
  datatype Entry = Entry(key: string, message: string)

  const MEDICINES_REQUIRED_PATH := "/medicinesRequired"
  const MEDICINES_PATH := "/medicines"
  const CLIENTS_PATH := "/clients"
  const DOCTORS_PATH := "/doctors"
  const DIAGNOSTICS_PATH := "/diagnostics"
  const USERS_PATH := "/users"

  const MEDICINES_REQUIRED_TEXT := "Cargando medicinas requeridas..."
  const MEDICINES_TEXT := "Cargando medicinas..."
  const CLIENTS_TEXT := "Cargando clientes..."
  const DOCTORS_TEXT := "Cargando médicos..."
  const DIAGNOSTICS_TEXT := "Cargando diagnósticos..."
  const USERS_TEXT := "Cargando usuarios..."
  const SAVING_TEXT := "Guardando información..."
  const UPDATING_TEXT := "Actualizando información..."
  const DELETING_TEXT := "Eliminando registro..."

  /** The table in its declaration order, which is the order of lookup. */
  const LOADING_MESSAGES: seq<Entry> := [
    Entry(MEDICINES_REQUIRED_PATH, MEDICINES_REQUIRED_TEXT),
    Entry(MEDICINES_PATH, MEDICINES_TEXT),
    Entry(CLIENTS_PATH, CLIENTS_TEXT),
    Entry(DOCTORS_PATH, DOCTORS_TEXT),
    Entry(DIAGNOSTICS_PATH, DIAGNOSTICS_TEXT),
    Entry(USERS_PATH, USERS_TEXT),
    Entry("POST", SAVING_TEXT),
    Entry("PUT", UPDATING_TEXT),
    Entry("DELETE", DELETING_TEXT)
  ]

  const PROCESSING := "Procesando solicitud..."
  const COMPLETED := "Completado"
  const REQUEST_FAILED := "Error en la solicitud"

  /** The three keys that name a method rather than a URL fragment. */
  predicate IsMethodKey(key: string)
  {
    key == "POST" || key == "PUT" || key == "DELETE"
  }

  /** An entry chosen by URL: its key occurs in the URL and is not a method key. */
  predicate MatchesUrl(e: Entry, url: string)
  {
    Contains(url, e.key) && !IsMethodKey(e.key)
  }

  /** The position of the first entry satisfying `p`, or `|entries|` if none does. */
  function FirstIndex(entries: seq<Entry>, p: Entry -> bool): (k: nat)
    ensures k <= |entries|
    ensures forall j | 0 <= j < k :: !p(entries[j])
    ensures k < |entries| ==> p(entries[k])
  {
    if entries == [] then 0
    else if p(entries[0]) then 0
    else 1 + FirstIndex(entries[1..], p)
  }

  /** `loadingMessages[key]`: the message stored under exactly this key. */
  function Lookup(entries: seq<Entry>, key: string): (r: Option<string>)
    ensures r.None? <==> forall i | 0 <= i < |entries| :: entries[i].key != key
    ensures r.Some? ==> exists i | 0 <= i < |entries| :: entries[i] == Entry(key, r.value)
  {
    var k := FirstIndex(entries, (e: Entry) => e.key == key);
    if k < |entries| then Some(entries[k].message) else None
  }

  /** The message of the first entry chosen by URL, if any. */
  function UrlMessage(entries: seq<Entry>, url: string): (r: Option<string>)
    ensures r.None? <==> forall i | 0 <= i < |entries| :: !MatchesUrl(entries[i], url)
  {
    var k := FirstIndex(entries, (e: Entry) => MatchesUrl(e, url));
    if k < |entries| then Some(entries[k].message) else None
  }

  /** The message for a request: the first URL entry whose fragment the URL
      contains; failing that, the entry named by the method if its text is
      non-empty; failing that, the generic text. */
  function LoadingMessage(url: string, httpMethod: string): (m: string)
    ensures m != ""
  {
    var byUrl := UrlMessage(LOADING_MESSAGES, url);
    if byUrl.Some? then byUrl.value
    else
      var byMethod := Lookup(LOADING_MESSAGES, httpMethod);
      if Truthy(byMethod) then byMethod.value else PROCESSING
  }

  /** The lookup loop over the table: method keys are skipped and the first
      entry whose fragment occurs in the URL gives the message. */
  method FindUrlMessage(entries: seq<Entry>, url: string) returns (m: Option<string>)
    ensures m == UrlMessage(entries, url)
  {
    for i := 0 to |entries|
      invariant forall j | 0 <= j < i :: !MatchesUrl(entries[j], url)
    {
      var entry := entries[i];
      if Contains(url, entry.key) && entry.key != "POST" && entry.key != "PUT" && entry.key != "DELETE" {
        assert FirstIndex(entries, (e: Entry) => MatchesUrl(e, url)) == i;
        return Some(entry.message);
      }
    }
    return None;
  }

  /** `getLoadingMessage`: the URL loop, then the method entry, then the
      generic text. */
  method GetLoadingMessage(url: string, httpMethod: string) returns (m: string)
    ensures m == LoadingMessage(url, httpMethod)
  {
    var byUrl := FindUrlMessage(LOADING_MESSAGES, url);
    if byUrl.Some? {
      return byUrl.value;
    }
    var byMethod := Lookup(LOADING_MESSAGES, httpMethod);
    if byMethod.Some? && byMethod.value != "" {
      return byMethod.value;
    }
    return PROCESSING;
  }

  /** In any table, the first entry chosen by URL gives the message. */
  lemma FirstMatchGivesMessage(entries: seq<Entry>, url: string, i: nat)
    requires i < |entries| && MatchesUrl(entries[i], url)
    requires forall j | 0 <= j < i :: !MatchesUrl(entries[j], url)
    ensures UrlMessage(entries, url) == Some(entries[i].message)
  {
    assert FirstIndex(entries, (e: Entry) => MatchesUrl(e, url)) == i;
  }

  /** In any table, the first entry with exactly the key gives its message. */
  lemma LookupFindsFirst(entries: seq<Entry>, key: string, i: nat)
    requires i < |entries| && entries[i].key == key
    requires forall j | 0 <= j < i :: entries[j].key != key
    ensures Lookup(entries, key) == Some(entries[i].message)
  {
    assert FirstIndex(entries, (e: Entry) => e.key == key) == i;
  }

  /** The message is the one of the first URL entry that matches. */
  lemma FirstUrlMatchWins(url: string, httpMethod: string, i: nat)
    requires i < |LOADING_MESSAGES| && MatchesUrl(LOADING_MESSAGES[i], url)
    requires forall j | 0 <= j < i :: !MatchesUrl(LOADING_MESSAGES[j], url)
    ensures LoadingMessage(url, httpMethod) == LOADING_MESSAGES[i].message
  {
    FirstMatchGivesMessage(LOADING_MESSAGES, url, i);
  }

  /** A URL naming required medicines also contains the plain medicines
      fragment, so the specific text is shown only because its entry comes
      first. */
  lemma {:induction false} MedicinesRequiredTakesPrecedence(url: string, httpMethod: string)
    requires Contains(url, MEDICINES_REQUIRED_PATH)
    ensures MatchesUrl(LOADING_MESSAGES[1], url)
    ensures LoadingMessage(url, httpMethod) == MEDICINES_REQUIRED_TEXT
  {
    ContainsPrefixOf(url, MEDICINES_PATH, MEDICINES_REQUIRED_PATH);
    FirstUrlMatchWins(url, httpMethod, 0);
  }

  /** The three method entries sit after the six URL fragments, and no
      fragment is a method name: each fragment starts with a slash. */
  lemma MethodEntry(httpMethod: string, i: nat)
    requires (httpMethod, i) in {("POST", 6), ("PUT", 7), ("DELETE", 8)}
    ensures Lookup(LOADING_MESSAGES, httpMethod) == Some(LOADING_MESSAGES[i].message)
  {
    forall j | 0 <= j < i
      ensures LOADING_MESSAGES[j].key != httpMethod
    {
      if j < 6 {
        assert LOADING_MESSAGES[j].key[0] == '/';
      }
    }
    LookupFindsFirst(LOADING_MESSAGES, httpMethod, i);
  }

  /** Without a URL match the method decides: the three method entries give
      their texts, a method with no entry gives the generic text. A URL that
      merely contains "POST", "PUT" or "DELETE" is not a URL match. */
  lemma MethodFallback(url: string, httpMethod: string)
    requires forall i | 0 <= i < |LOADING_MESSAGES| :: !MatchesUrl(LOADING_MESSAGES[i], url)
    ensures httpMethod == "POST" ==> LoadingMessage(url, httpMethod) == SAVING_TEXT
    ensures httpMethod == "PUT" ==> LoadingMessage(url, httpMethod) == UPDATING_TEXT
    ensures httpMethod == "DELETE" ==> LoadingMessage(url, httpMethod) == DELETING_TEXT
    ensures (forall i | 0 <= i < |LOADING_MESSAGES| :: LOADING_MESSAGES[i].key != httpMethod) ==>
              LoadingMessage(url, httpMethod) == PROCESSING
  {
    var byUrl := UrlMessage(LOADING_MESSAGES, url);
    assert byUrl.None?;
    if httpMethod == "POST" {
      MethodEntry(httpMethod, 6);
    } else if httpMethod == "PUT" {
      MethodEntry(httpMethod, 7);
    } else if httpMethod == "DELETE" {
      MethodEntry(httpMethod, 8);
    }
  }

  // ---------------------------------------------------------------------
  // The request counter and the calls made on the loader service.

  /** A call the interceptor makes on the loader service. `ScheduleHide` is
      the hide queued on a 200 ms timer. */
  datatype LoaderCall = Show(message: string) | UpdateMessage(message: string) | ScheduleHide

  /** What the request stream delivers to the `tap` observer. */
  datatype StreamEvent = Next(isResponse: bool) | Error

  /** The calls the `tap` observer makes for one event: a full response says
      "Completado", an error says "Error en la solicitud", other events say
      nothing. */
  function Reported(event: StreamEvent): (r: seq<LoaderCall>)
    ensures |r| <= 1
    ensures r == [] <==> event == Next(false)
    ensures forall c | c in r :: c.UpdateMessage? && c.message != ""
  {
    match event
    case Next(isResponse) => if isResponse then [UpdateMessage(COMPLETED)] else []
    case Error => [UpdateMessage(REQUEST_FAILED)]
  }

  /** The module-level counter and the log of loader-service calls. */
  class Interceptor {
    var activeRequests: int
    var calls: seq<LoaderCall>

    constructor()
      ensures activeRequests == 0 && calls == []
    {
      activeRequests := 0;
      calls := [];
    }

    /** A request enters: the counter goes up by one; the first request in
        flight shows the loader, later ones only change its message. */
    method Begin(url: string, httpMethod: string)
      modifies this
      ensures activeRequests == old(activeRequests) + 1
      ensures activeRequests == 1 ==> calls == old(calls) + [Show(LoadingMessage(url, httpMethod))]
      ensures activeRequests != 1 ==> calls == old(calls) + [UpdateMessage(LoadingMessage(url, httpMethod))]
    {
      activeRequests := activeRequests + 1;
      var message := GetLoadingMessage(url, httpMethod);
      if activeRequests == 1 {
        calls := calls + [Show(message)];
      } else {
        calls := calls + [UpdateMessage(message)];
      }
    }

    /** The `tap` observer. */
    method Observe(event: StreamEvent)
      modifies this
      ensures activeRequests == old(activeRequests)
      ensures calls == old(calls) + Reported(event)
    {
      match event
      case Next(isResponse) =>
        if isResponse {
          calls := calls + [UpdateMessage(COMPLETED)];
        }
      case Error =>
        calls := calls + [UpdateMessage(REQUEST_FAILED)];
    }

    /** `finalize`: the counter goes down by one; when it reaches zero a hide
        is scheduled. */
    method Finalize()
      modifies this
      ensures activeRequests == old(activeRequests) - 1
      ensures activeRequests == 0 ==> calls == old(calls) + [ScheduleHide]
      ensures activeRequests != 0 ==> calls == old(calls)
    {
      activeRequests := activeRequests - 1;
      if activeRequests == 0 {
        calls := calls + [ScheduleHide];
      }
    }

    /** One request from start to finish: the counter is back where it was;
        a request made while idle shows the loader and ends by scheduling the
        hide, one made while others run only updates the message. */
    method Request(url: string, httpMethod: string, settled: StreamEvent)
      modifies this
      ensures activeRequests == old(activeRequests)
      ensures old(activeRequests) == 0 ==>
                calls == old(calls) + [Show(LoadingMessage(url, httpMethod))] + Reported(settled) + [ScheduleHide]
      ensures old(activeRequests) != 0 ==>
                calls == old(calls) + [UpdateMessage(LoadingMessage(url, httpMethod))] + Reported(settled)
    {
      Begin(url, httpMethod);
      Observe(settled);
      Finalize();
    }
  }

  // ---------------------------------------------------------------------
  // Visibility of the indicator over interleaved requests.

  /** The counter, whether the indicator is visible, and the hides still
      waiting on their timer. This abstracts the `Interceptor` class above
      for the visibility claims: `active` is its `activeRequests`,
      `RequestStarts` is `Begin` (a `Show` exactly when the counter becomes
      1), `RequestEnds` is `Finalize` (a `ScheduleHide` exactly when it
      reaches 0, queued here as a pending hide), and `HideTimerFires` is the
      delayed `hide()` that `ScheduleHide` stands for. Messages are left
      out, since they do not affect visibility. */
  datatype Indicator = Indicator(active: int, visible: bool, pendingHides: nat)

  const IDLE := Indicator(0, false, 0)

  datatype LoaderEvent = RequestStarts | RequestEnds | HideTimerFires

  /** One event. With `recheck` false the timer hides unconditionally, as the
      interceptor's callback does; with `recheck` true it hides only when the
      counter is still zero. */
  function After(s: Indicator, e: LoaderEvent, recheck: bool): (t: Indicator)
    ensures e == RequestStarts ==> t.active == s.active + 1 && t.visible == (s.visible || t.active == 1)
    ensures e == RequestEnds ==> t.active == s.active - 1 && t.visible == s.visible
    ensures e == HideTimerFires ==> t.active == s.active
    ensures e == HideTimerFires && s.pendingHides > 0 && !(recheck && s.active != 0) ==> !t.visible
  {
    match e
    case RequestStarts =>
      Indicator(s.active + 1, if s.active + 1 == 1 then true else s.visible, s.pendingHides)
    case RequestEnds =>
      Indicator(s.active - 1, s.visible, if s.active - 1 == 0 then s.pendingHides + 1 else s.pendingHides)
    case HideTimerFires =>
      if s.pendingHides == 0 then s
      else if recheck && s.active != 0 then s.(pendingHides := s.pendingHides - 1)
      else Indicator(s.active, false, s.pendingHides - 1)
  }

  function Run(s: Indicator, events: seq<LoaderEvent>, recheck: bool): Indicator
  {
    if events == [] then s
    else After(Run(s, events[..|events| - 1], recheck), events[|events| - 1], recheck)
  }

  /** As written: a request that starts while the previous one's hide is still
      on its timer is left running with the indicator hidden. */
  lemma HiddenWhileRequestActive()
    ensures var s := Run(IDLE, [RequestStarts, RequestEnds, RequestStarts, HideTimerFires], false);
            s.active == 1 && !s.visible
  {
    var events := [RequestStarts, RequestEnds, RequestStarts, HideTimerFires];
    assert events[..3] == [RequestStarts, RequestEnds, RequestStarts];
    assert events[..3][..2] == [RequestStarts, RequestEnds];
    assert events[..3][..2][..1] == [RequestStarts];
    assert events[..3][..2][..1][..0] == [];
    var s1 := Run(IDLE, [RequestStarts], false);
    assert s1 == Indicator(1, true, 0);
    var s2 := Run(IDLE, [RequestStarts, RequestEnds], false);
    assert s2 == Indicator(0, true, 1);
    var s3 := Run(IDLE, events[..3], false);
    assert s3 == Indicator(1, true, 1);
  }

  /** With the counter re-checked when the timer fires, the indicator is
      visible whenever a request is in flight, whatever the interleaving. */
  lemma {:induction false} GuardedVisibleWhileActive(s: Indicator, events: seq<LoaderEvent>)
    requires s.active > 0 ==> s.visible
    ensures var t := Run(s, events, true); t.active > 0 ==> t.visible
    decreases |events|
  {
    if events != [] {
      GuardedVisibleWhileActive(s, events[..|events| - 1]);
    }
  }
}
