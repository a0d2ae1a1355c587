/**
 * The webhook side of the service: registering a webhook (`postWebhook`),
 * selecting the webhooks an event fires (`triggerEvent`, `checkWebhook`),
 * the event switch (`invocationHandler`), deleting a webhook and the method
 * routing of `NotificationHandler`.
 *
 * Every HTTP GET the handler makes is one oracle `get`, from the URL to the
 * status code of the response, or `None` when the request itself fails. The
 * webhook collection is a sequence of stored webhooks, and the Dashboard
 * collection a sequence of registration documents.
 */
module Notification {
  import opened Text
  import opened Http
  import Idgen
  import IdRetry
  import Registration

  // ---------------------------------------------------------------------------
  // ValidateEvent and isDigit

  /** The event names a webhook may subscribe to. */
  const Events: set<string> := {"REGISTER", "INVOKE", "CHANGE", "DELETE"}

  /** `ValidateEvent`: one of the four event names, spelled exactly. */
  function ValidateEvent(e: string): (b: bool)
    ensures b <==> e in Events
  {
    e == "REGISTER" || e == "INVOKE" || e == "CHANGE" || e == "DELETE"
  }

  /** Event names are case-sensitive, and the names the tests use for a bad event are refused. */
  lemma ValidateEventCases()
    ensures |Events| == 4
    ensures !ValidateEvent("register") && !ValidateEvent("Temperature") && !ValidateEvent("INVALID")
    ensures !ValidateEvent("")
  {
  }

  /** `isDigit`: one of the ten ASCII digits. */
  function IsDigit(c: char): (b: bool)
    ensures b <==> c in Idgen.Digits
  {
    assert Idgen.Digits == ['0', '1', '2', '3', '4', '5', '6', '7', '8', '9'];
    c >= '0' && c <= '9'
  }

  // ---------------------------------------------------------------------------
  // The localhost rule

  const LocalhostPrefix: string := "http://localhost:"

  /** What the localhost rule accepts after the prefix: at least five characters, four digits and then '/'. */
  predicate PortAndSlash(rest: string) {
    |rest| >= 5 && rest[4] == '/' && forall i :: 0 <= i < 4 ==> IsDigit(rest[i])
  }

  /**
   * The localhost check of `postWebhook` on the text after the prefix: the
   * length and slash tests, then the loop over the four port characters.
   */
  method CheckLocalPort(rest: string) returns (valid: bool)
    ensures valid <==> PortAndSlash(rest)
  {
    if |rest| < 5 {
      return false;
    } else if rest[4] != '/' {
      return false;
    }
    valid := true;
    var i := 0;
    while i < 4
      invariant 0 <= i <= 4
      invariant valid
      invariant forall k :: 0 <= k < i ==> IsDigit(rest[k])
    {
      if i >= |rest| || !IsDigit(rest[i]) {
        valid := false;
        break;
      }
      i := i + 1;
    }
  }

  /** The accepted remainders are exactly a four-digit port, a slash and any path. */
  lemma PortAndSlashShape(rest: string)
    ensures PortAndSlash(rest) <==>
      exists port, path :: rest == port + "/" + path && |port| == 4 && forall i :: 0 <= i < 4 ==> '0' <= port[i] <= '9'
  {
    if PortAndSlash(rest) {
      var port, path := rest[..4], rest[5..];
      assert rest == port + "/" + path;
    }
  }

  /** The remainders of the localhost URLs the tests use. */
  lemma PortAndSlashExamples()
    ensures !PortAndSlash("80")
    ensures !PortAndSlash("8000path")
    ensures !PortAndSlash("80a0/path")
    ensures PortAndSlash("8000/path") && PortAndSlash("1234/")
  {
    assert "8000path"[4] == 'p';
    assert "80a0/path"[2] == 'a';
  }

  // ---------------------------------------------------------------------------
  // postWebhook

  /** The decoded request body of a webhook registration. */
  datatype WebhookRegistration = WebhookRegistration(url: string, country: string, event: string)

  /** A document of the webhook collection. */
  datatype Webhook = Webhook(id: string, url: string, country: string, event: string)

  /** How `postWebhook` ended: a reply and the webhook collection after it, a panic, or an identifier loop still drawing. */
  datatype Outcome = Done(w: Writer, hooks: seq<Webhook>) | Crashed | StillDrawing

  /** The identifier of a webhook, the key of the collision query. */
  function HookId(h: Webhook): string {
    h.id
  }

  function HookIds(hooks: seq<Webhook>): set<string> {
    KeySet(hooks, HookId)
  }

  /** No two webhooks carry the same identifier. */
  predicate UniqueHookIds(hooks: seq<Webhook>) {
    UniqueKeys(hooks, HookId)
  }

  /** The JSON body of a successful webhook registration, as the encoder writes it. */
  function IdReply(id: string): string {
    "{\"id\":\"" + id + "\"}\n"
  }

  /** The URL is on localhost and so is checked by the port rule instead of a probe. */
  predicate OnLocalhost(url: string) {
    HasPrefix(url, LocalhostPrefix)
  }

  /**
   * `postWebhook` for the body `body` (`None` when it does not decode): the
   * required fields, the event, the URL (the port rule on localhost, a probe
   * GET elsewhere, whose failure leaves a nil response to dereference), the
   * country lookup, the identifier loop against the identifiers in `taken`,
   * and the add, whose failure returns without a reply.
   */
  function PostWebhookSpec(body: Option<WebhookRegistration>, get: string -> Option<nat>,
                           attempts: seq<IdRetry.Attempt>, taken: set<string>, addFails: bool,
                           hooks: seq<Webhook>): Outcome
    requires IdRetry.Drawable(attempts)
  {
    if body.None? then Done(Error(Fresh, "failed decoding JSON", StatusInternalServerError), hooks)
    else
      var hook := body.value;
      if Registration.IsEmptyField(Registration.Str(hook.url)) || Registration.IsEmptyField(Registration.Str(hook.event)) then
        Done(Error(Fresh, "Not all needed elements are included", StatusBadRequest), hooks)
      else if !ValidateEvent(hook.event) then
        Done(Error(Fresh, "Event is not added in correctly", StatusBadRequest), hooks)
      else if OnLocalhost(hook.url) && !PortAndSlash(hook.url[|LocalhostPrefix|..]) then
        Done(Error(Fresh, "Localhost url is not valid", StatusBadRequest), hooks)
      else if !OnLocalhost(hook.url) && get(hook.url).None? then Crashed
      else if !OnLocalhost(hook.url) && get(hook.url).value != StatusOK then
        Done(Error(Fresh, "Url provided is not valid", StatusBadRequest), hooks)
      else
        var lookup := get(CountriesApiIsocode + hook.country);
        if lookup.None? then Done(Error(Fresh, "Failed to check for country data", StatusBadRequest), hooks)
        else if lookup.value == StatusBadRequest && hook.country != "" then
          Done(Error(Fresh, "isocode: " + hook.country + " is not valid", StatusBadRequest), hooks)
        else
          match IdRetry.FirstFree(attempts, taken)
          case Unfinished => StillDrawing
          case Picked(id, _, _) =>
            if addFails then Done(Fresh, hooks)
            else Done(Write(Fresh, IdReply(id)), hooks + [Webhook(id, hook.url, ToUpper(hook.country), hook.event)])
  }

  /**
   * `postWebhook` as written: the identifier loop asks the Dashboard
   * collection, `dashboards`, whether an identifier is taken, while the new
   * webhook goes into the webhook collection `hooks`.
   */
  method PostWebhook(body: Option<WebhookRegistration>, get: string -> Option<nat>,
                     attempts: seq<IdRetry.Attempt>, dashboards: seq<Registration.Doc>, addFails: bool,
                     hooks: seq<Webhook>)
    returns (out: Outcome)
    requires IdRetry.Drawable(attempts)
    ensures out == PostWebhookSpec(body, get, attempts, Registration.IdsOf(dashboards), addFails, hooks)
  {
    if body.None? {
      return Done(Error(Fresh, "failed decoding JSON", StatusInternalServerError), hooks);
    }
    var hook := body.value;
    if Registration.IsEmptyField(Registration.Str(hook.url)) || Registration.IsEmptyField(Registration.Str(hook.event)) {
      return Done(Error(Fresh, "Not all needed elements are included", StatusBadRequest), hooks);
    }
    if !ValidateEvent(hook.event) {
      return Done(Error(Fresh, "Event is not added in correctly", StatusBadRequest), hooks);
    }
    if HasPrefix(hook.url, LocalhostPrefix) {
      var valid := CheckLocalPort(hook.url[|LocalhostPrefix|..]);
      if !valid {
        return Done(Error(Fresh, "Localhost url is not valid", StatusBadRequest), hooks);
      }
    } else {
      var check := get(hook.url);
      if check.None? {
        // the failed GET leaves a nil response, whose status is then read
        return Crashed;
      }
      if check.value != StatusOK {
        return Done(Error(Fresh, "Url provided is not valid", StatusBadRequest), hooks);
      }
    }
    var a := get(CountriesApiIsocode + hook.country);
    if a.None? {
      return Done(Error(Fresh, "Failed to check for country data", StatusBadRequest), hooks);
    }
    if a.value == StatusBadRequest && hook.country != "" {
      return Done(Error(Fresh, "isocode: " + hook.country + " is not valid", StatusBadRequest), hooks);
    }
    var pick := IdRetry.PickUniqueId(attempts, Registration.IdsOf(dashboards));
    if pick.Unfinished? {
      return StillDrawing;
    }
    var isocode := ToUpper(hook.country);
    if addFails {
      return Done(Fresh, hooks);
    }
    out := Done(Write(Fresh, IdReply(pick.id)), hooks + [Webhook(pick.id, hook.url, isocode, hook.event)]);
  }

  /** The intended registration: the identifier loop asks the webhook collection itself. */
  function PostWebhookFixed(body: Option<WebhookRegistration>, get: string -> Option<nat>,
                            attempts: seq<IdRetry.Attempt>, addFails: bool, hooks: seq<Webhook>): (out: Outcome)
    requires IdRetry.Drawable(attempts)
    ensures out.Done? && out.hooks != hooks ==>
      var pick := IdRetry.FirstFree(attempts, HookIds(hooks));
      pick.Picked? && (!pick.storeError ==> pick.id !in HookIds(hooks))
  {
    IdRetry.FirstFreeFromSpec(attempts, HookIds(hooks), 0);
    PostWebhookSpec(body, get, attempts, HookIds(hooks), addFails, hooks)
  }

  /** Missing a URL or an event is a 400, whatever every lookup would return. */
  lemma PostWebhookNeedsFields(hook: WebhookRegistration, get: string -> Option<nat>,
                               attempts: seq<IdRetry.Attempt>, taken: set<string>, addFails: bool, hooks: seq<Webhook>)
    requires IdRetry.Drawable(attempts)
    requires hook.url == "" || hook.event == ""
    ensures PostWebhookSpec(Some(hook), get, attempts, taken, addFails, hooks) ==
      Done(Writer(true, StatusBadRequest, "Not all needed elements are included\n"), hooks)
  {
  }

  /** With both fields present, an unknown event is a 400 before the URL is looked at. */
  lemma PostWebhookChecksEvent(hook: WebhookRegistration, get: string -> Option<nat>,
                               attempts: seq<IdRetry.Attempt>, taken: set<string>, addFails: bool, hooks: seq<Webhook>)
    requires IdRetry.Drawable(attempts)
    requires hook.url != "" && hook.event != "" && hook.event !in Events
    ensures PostWebhookSpec(Some(hook), get, attempts, taken, addFails, hooks) ==
      Done(Writer(true, StatusBadRequest, "Event is not added in correctly\n"), hooks)
  {
  }

  /**
   * For a complete registration with a valid event on localhost, the reply is
   * "Localhost url is not valid" exactly when the port rule fails, and the
   * URL itself is never fetched: the outcome depends on the oracle only at
   * the country lookup.
   */
  lemma PostWebhookLocalhostRule(hook: WebhookRegistration, get1: string -> Option<nat>, get2: string -> Option<nat>,
                                 attempts: seq<IdRetry.Attempt>, taken: set<string>, addFails: bool, hooks: seq<Webhook>)
    requires IdRetry.Drawable(attempts)
    requires hook.url != "" && hook.event in Events && OnLocalhost(hook.url)
    requires get1(CountriesApiIsocode + hook.country) == get2(CountriesApiIsocode + hook.country)
    ensures PostWebhookSpec(Some(hook), get1, attempts, taken, addFails, hooks) ==
      PostWebhookSpec(Some(hook), get2, attempts, taken, addFails, hooks)
    ensures var out := PostWebhookSpec(Some(hook), get1, attempts, taken, addFails, hooks);
      out == Done(Writer(true, StatusBadRequest, "Localhost url is not valid\n"), hooks)
      <==> !PortAndSlash(hook.url[|LocalhostPrefix|..])
  {
    var lookup := get1(CountriesApiIsocode + hook.country);
    if PortAndSlash(hook.url[|LocalhostPrefix|..]) && lookup.Some? && lookup.value == StatusBadRequest && hook.country != "" {
      var m := "isocode: " + hook.country + " is not valid\n";
      assert m[0] == 'i' && "Localhost url is not valid\n"[0] == 'L';
    }
  }

  /** The localhost URLs of the tests are refused by the port rule. */
  lemma PostWebhookLocalhostExamples(country: string, event: string, get: string -> Option<nat>,
                                     attempts: seq<IdRetry.Attempt>, taken: set<string>, addFails: bool, hooks: seq<Webhook>)
    requires IdRetry.Drawable(attempts)
    requires event in Events
    ensures forall url | url in ["http://localhost:80", "http://localhost:8000path", "http://localhost:80a0/path"] ::
      PostWebhookSpec(Some(WebhookRegistration(url, country, event)), get, attempts, taken, addFails, hooks) ==
        Done(Writer(true, StatusBadRequest, "Localhost url is not valid\n"), hooks)
  {
    PortAndSlashExamples();
    assert "http://localhost:80" == LocalhostPrefix + "80";
    assert "http://localhost:8000path" == LocalhostPrefix + "8000path";
    assert "http://localhost:80a0/path" == LocalhostPrefix + "80a0/path";
  }

  /**
   * Once the URL is accepted and the country lookup answers, the country is
   * refused exactly when the lookup says 400 and the country is not empty.
   */
  lemma PostWebhookCountryRule(hook: WebhookRegistration, get: string -> Option<nat>,
                               attempts: seq<IdRetry.Attempt>, taken: set<string>, addFails: bool, hooks: seq<Webhook>)
    requires IdRetry.Drawable(attempts)
    requires hook.url != "" && hook.event in Events
    requires if OnLocalhost(hook.url) then PortAndSlash(hook.url[|LocalhostPrefix|..]) else get(hook.url) == Some(StatusOK)
    requires get(CountriesApiIsocode + hook.country).Some?
    ensures var out := PostWebhookSpec(Some(hook), get, attempts, taken, addFails, hooks);
      out == Done(Writer(true, StatusBadRequest, "isocode: " + hook.country + " is not valid\n"), hooks)
      <==> get(CountriesApiIsocode + hook.country) == Some(StatusBadRequest) && hook.country != ""
  {
  }

  /**
   * A registration that stores something stores exactly one webhook: the
   * request's URL and event, its country upper-cased, under the identifier
   * the loop settled on, and replies 200 with that identifier. Only a
   * complete request with a valid event and an accepted URL gets there.
   */
  lemma PostWebhookStores(body: Option<WebhookRegistration>, get: string -> Option<nat>,
                          attempts: seq<IdRetry.Attempt>, taken: set<string>, addFails: bool, hooks: seq<Webhook>)
    requires IdRetry.Drawable(attempts)
    requires var out := PostWebhookSpec(body, get, attempts, taken, addFails, hooks); out.Done? && out.hooks != hooks
    ensures var out, pick := PostWebhookSpec(body, get, attempts, taken, addFails, hooks), IdRetry.FirstFree(attempts, taken);
      && body.Some? && body.value.url != "" && ValidateEvent(body.value.event) && !addFails
      && (OnLocalhost(body.value.url) ==> PortAndSlash(body.value.url[|LocalhostPrefix|..]))
      && pick.Picked? && |pick.id| == IdRetry.IdLength && (!pick.storeError ==> pick.id !in taken)
      && out.hooks == hooks + [Webhook(pick.id, body.value.url, ToUpper(body.value.country), body.value.event)]
      && out.w == Writer(true, StatusOK, IdReply(pick.id))
  {
    IdRetry.FirstFreeFromSpec(attempts, taken, 0);
  }

  /** Every reply but a successful add leaves the webhook collection as it was. */
  lemma PostWebhookAddsAtMostOne(body: Option<WebhookRegistration>, get: string -> Option<nat>,
                                 attempts: seq<IdRetry.Attempt>, taken: set<string>, addFails: bool, hooks: seq<Webhook>)
    requires IdRetry.Drawable(attempts)
    requires PostWebhookSpec(body, get, attempts, taken, addFails, hooks).Done?
    ensures var out := PostWebhookSpec(body, get, attempts, taken, addFails, hooks);
      out.hooks == hooks || (|out.hooks| == |hooks| + 1 && out.hooks[..|hooks|] == hooks)
    ensures var out := PostWebhookSpec(body, get, attempts, taken, addFails, hooks);
      out.w.status != StatusOK ==> out.hooks == hooks
  {
  }

  /** With the loop asking the webhook collection, a registration keeps the webhook identifiers unique. */
  lemma PostWebhookFixedKeepsIdsUnique(body: Option<WebhookRegistration>, get: string -> Option<nat>,
                                       attempts: seq<IdRetry.Attempt>, addFails: bool, hooks: seq<Webhook>)
    requires IdRetry.Drawable(attempts)
    requires UniqueHookIds(hooks)
    requires var pick := IdRetry.FirstFree(attempts, HookIds(hooks)); pick.Picked? ==> !pick.storeError
    requires PostWebhookFixed(body, get, attempts, addFails, hooks).Done?
    ensures UniqueHookIds(PostWebhookFixed(body, get, attempts, addFails, hooks).hooks)
  {
    var out := PostWebhookFixed(body, get, attempts, addFails, hooks);
    if out.hooks != hooks {
      PostWebhookStores(body, get, attempts, HookIds(hooks), addFails, hooks);
      var added := out.hooks[|hooks|];
      assert out.hooks == hooks + [added];
      forall i | 0 <= i < |hooks| ensures hooks[i].id != added.id {
        assert hooks[i] in hooks;
      }
    }
  }

  /** Five draws of index 0 make the identifier "AAAAA". */
  lemma FirstRuneDraws()
    ensures Idgen.UidOf([0, 0, 0, 0, 0]) == "AAAAA"
  {
    Idgen.RunesAt(0);
  }

  /** A webhook collection holding one webhook under "AAAAA". */
  const ExampleHooks: seq<Webhook> := [Webhook("AAAAA", "http://localhost:8080/a", "NO", "INVOKE")]

  /** A complete registration for a local URL, without a country. */
  const ExampleHook: WebhookRegistration := WebhookRegistration("http://localhost:8080/b", "", "CHANGE")

  /** One round of the identifier loop, drawing "AAAAA" from a store that answers. */
  const ExampleAttempts: seq<IdRetry.Attempt> := [IdRetry.Attempt([0, 0, 0, 0, 0], false)]

  /** The example registration passes every check before the identifier loop. */
  lemma ExampleHookAccepted()
    ensures ExampleHook.url != "" && ExampleHook.event in Events
    ensures OnLocalhost(ExampleHook.url) && PortAndSlash(ExampleHook.url[|LocalhostPrefix|..])
    ensures ToUpper(ExampleHook.country) == ""
  {
    assert ExampleHook.url == LocalhostPrefix + "8080/b";
    assert ExampleHook.url[..|LocalhostPrefix|] == LocalhostPrefix;
    assert ExampleHook.url[|LocalhostPrefix|..] == "8080/b";
    assert "8080/b"[4] == '/';
  }

  /** The loop takes "AAAAA" when nothing carries it, and runs out of rounds when the example collection is asked. */
  lemma ExampleDraws()
    ensures IdRetry.Drawable(ExampleAttempts)
    ensures IdRetry.FirstFree(ExampleAttempts, {}) == IdRetry.Picked("AAAAA", 0, false)
    ensures HookIds(ExampleHooks) == {"AAAAA"}
    ensures IdRetry.FirstFree(ExampleAttempts, HookIds(ExampleHooks)) == IdRetry.Unfinished
  {
    FirstRuneDraws();
    assert ExampleAttempts[0].draws[..IdRetry.IdLength] == [0, 0, 0, 0, 0];
    assert IdRetry.CandidateAt(ExampleAttempts, 0) == "AAAAA";
    assert ExampleHooks[0] in ExampleHooks;
  }

  /**
   * As written, the loop accepts an identifier that a webhook already has:
   * with an empty Dashboard collection, the first draw is taken even though
   * the webhook collection carries it, and the collection ends with two
   * webhooks under one identifier. The intended registration, asking the
   * webhook collection, draws again instead.
   */
  lemma PostWebhookDuplicateId(get: string -> Option<nat>)
    requires get(CountriesApiIsocode) == Some(StatusOK)
    ensures IdRetry.Drawable(ExampleAttempts)
    ensures var asWritten := PostWebhookSpec(Some(ExampleHook), get, ExampleAttempts, Registration.IdsOf([]), false, ExampleHooks);
      && asWritten == Done(Writer(true, StatusOK, IdReply("AAAAA")),
                           ExampleHooks + [Webhook("AAAAA", ExampleHook.url, "", ExampleHook.event)])
      && !UniqueHookIds(asWritten.hooks)
    ensures PostWebhookFixed(Some(ExampleHook), get, ExampleAttempts, false, ExampleHooks) == StillDrawing
  {
    ExampleHookAccepted();
    ExampleDraws();
    assert Registration.IdsOf([]) == {};
    assert CountriesApiIsocode + ExampleHook.country == CountriesApiIsocode;
    var added := Webhook("AAAAA", ExampleHook.url, "", ExampleHook.event);
    assert (ExampleHooks + [added])[0].id == (ExampleHooks + [added])[1].id;
  }

  // ---------------------------------------------------------------------------
  // triggerEvent and checkWebhook

  /** The country filter of both queries: the given country, or a webhook registered without one. */
  predicate ForCountry(h: Webhook, country: string) {
    h.country == country || h.country == ""
  }

  /** The filter of `triggerEvent`'s query. */
  predicate Selected(h: Webhook, event: string, country: string) {
    h.event == event && ForCountry(h, country)
  }

  /** The webhooks an event fires, in collection order. */
  function Subscribers(hooks: seq<Webhook>, event: string, country: string): seq<Webhook>
    decreases |hooks|
  {
    if |hooks| == 0 then []
    else
      var last := hooks[|hooks| - 1];
      Subscribers(hooks[..|hooks| - 1], event, country) + (if Selected(last, event, country) then [last] else [])
  }

  /**
   * The subscribers are the selected webhooks, each as often as the
   * collection holds it, and nothing else.
   */
  lemma {:induction false} SubscribersSpec(hooks: seq<Webhook>, event: string, country: string)
    ensures forall h :: (multiset(Subscribers(hooks, event, country))[h] ==
                         if Selected(h, event, country) then multiset(hooks)[h] else 0)
    ensures forall h :: h in Subscribers(hooks, event, country) <==> h in hooks && Selected(h, event, country)
    decreases |hooks|
  {
    if |hooks| > 0 {
      var front, last := hooks[..|hooks| - 1], hooks[|hooks| - 1];
      assert hooks == front + [last];
      SubscribersSpec(front, event, country);
      assert multiset(hooks) == multiset(front) + multiset{last};
    }
  }

  /** The positions in the collection of the webhooks `Subscribers` returns. */
  function SubscriberPositions(hooks: seq<Webhook>, event: string, country: string): seq<nat>
    decreases |hooks|
  {
    if |hooks| == 0 then []
    else
      var last := |hooks| - 1;
      SubscriberPositions(hooks[..last], event, country) + (if Selected(hooks[last], event, country) then [last] else [])
  }

  /**
   * The subscribers come in collection order: they are the webhooks at
   * strictly increasing positions, and those positions are exactly the ones
   * whose webhook the query selects.
   */
  lemma {:induction false} SubscribersInOrder(hooks: seq<Webhook>, event: string, country: string)
    ensures var subs, pos := Subscribers(hooks, event, country), SubscriberPositions(hooks, event, country);
      && |pos| == |subs|
      && (forall k :: 0 <= k < |pos| ==> pos[k] < |hooks| && subs[k] == hooks[pos[k]])
      && (forall k, l :: 0 <= k < l < |pos| ==> pos[k] < pos[l])
      && (forall i :: 0 <= i < |hooks| ==> (Selected(hooks[i], event, country) <==> i in pos))
    decreases |hooks|
  {
    if |hooks| > 0 {
      var front := hooks[..|hooks| - 1];
      SubscribersInOrder(front, event, country);
      assert forall i :: 0 <= i < |front| ==> front[i] == hooks[i];
    }
  }

  /** What a round of `triggerEvent` passes to `callUrl`: the decoded webhook, or whatever a failing `DataTo` left. */
  datatype Call = Invoke(hook: Webhook) | Undecoded

  const IterationError: string := "Error iterating over webhook documents "
  const DataError: string := "Error retrieving document data "

  /** The call made for document `h`; `unreadable` tells which documents `DataTo` fails on. */
  function CallFor(h: Webhook, unreadable: Webhook -> bool): Call {
    if unreadable(h) then Undecoded else Invoke(h)
  }

  /** The calls the rounds over `docs` start, in order. */
  function CallsFor(docs: seq<Webhook>, unreadable: Webhook -> bool): seq<Call>
    decreases |docs|
  {
    if |docs| == 0 then []
    else CallsFor(docs[..|docs| - 1], unreadable) + [CallFor(docs[|docs| - 1], unreadable)]
  }

  /** What the rounds over `docs` write: a 500 for each document that does not decode. */
  function WritesFor(docs: seq<Webhook>, unreadable: Webhook -> bool, w: Writer): Writer
    decreases |docs|
  {
    if |docs| == 0 then w
    else
      var before := WritesFor(docs[..|docs| - 1], unreadable, w);
      if unreadable(docs[|docs| - 1]) then Error(before, DataError, StatusInternalServerError) else before
  }

  /**
   * How `triggerEvent` ends.
   * - `Finished`: the iterator reached its end.
   * - `Aborted`: `Next` failed. Its error is written, and the loop goes on to
   *   `doc.DataTo` with the nil document `Next` returned with its error.
   *   `DataTo` reads the nil document's reference path to build its error,
   *   and that dereference panics. `w` and `calls` are the writer and the
   *   calls started when the panic happens.
   */
  datatype Triggered = Finished(w: Writer, calls: seq<Call>) | Aborted(w: Writer, calls: seq<Call>)

  /**
   * `triggerEvent` on writer `w0`, where `failAt` says how the query's
   * iterator behaves:
   * - `None`: it yields the subscribers and then its end;
   * - `Some(k)`: the call of `Next` that would return document `k` fails
   *   instead, or the call that would report the end when there are fewer
   *   documents.
   */
  function TriggerSpec(hooks: seq<Webhook>, event: string, country: string, failAt: Option<nat>,
                       unreadable: Webhook -> bool, w0: Writer): Triggered {
    var docs := Subscribers(hooks, event, country);
    var n := if failAt.Some? && failAt.value < |docs| then failAt.value else |docs|;
    var w, calls := WritesFor(docs[..n], unreadable, w0), CallsFor(docs[..n], unreadable);
    if failAt.Some? then Aborted(Error(w, IterationError, StatusInternalServerError), calls) else Finished(w, calls)
  }

  /** `triggerEvent`'s loop over the documents of its query. */
  method TriggerEvent(w0: Writer, event: string, country: string, hooks: seq<Webhook>,
                      failAt: Option<nat>, unreadable: Webhook -> bool)
    returns (out: Triggered)
    ensures out == TriggerSpec(hooks, event, country, failAt, unreadable, w0)
  {
    var docs := Subscribers(hooks, event, country);
    var w, calls, i := w0, [], 0;
    while i < |docs| && failAt != Some(i)
      invariant 0 <= i <= |docs|
      invariant failAt.Some? ==> i <= failAt.value
      invariant w == WritesFor(docs[..i], unreadable, w0)
      invariant calls == CallsFor(docs[..i], unreadable)
    {
      assert docs[..i + 1][..i] == docs[..i];
      var doc := docs[i];
      if unreadable(doc) {
        w := Error(w, DataError, StatusInternalServerError);
        calls := calls + [Undecoded];
      } else {
        calls := calls + [Invoke(doc)];
      }
      i := i + 1;
    }
    if failAt.Some? {
      w := Error(w, IterationError, StatusInternalServerError);
      out := Aborted(w, calls);
    } else {
      assert docs[..i] == docs;
      out := Finished(w, calls);
    }
  }

  /** One call per document, made for that document, in order. */
  lemma {:induction false} CallsForSpec(docs: seq<Webhook>, unreadable: Webhook -> bool)
    ensures |CallsFor(docs, unreadable)| == |docs|
    ensures forall k :: 0 <= k < |docs| ==> CallsFor(docs, unreadable)[k] == CallFor(docs[k], unreadable)
    decreases |docs|
  {
    if |docs| > 0 {
      var front := docs[..|docs| - 1];
      CallsForSpec(front, unreadable);
      assert forall k :: 0 <= k < |front| ==> front[k] == docs[k];
    }
  }

  /**
   * Documents that decode write nothing. One that does not decode fixes the
   * status at 500, unless a status was already sent, and the body only grows.
   */
  lemma {:induction false} WritesForSpec(docs: seq<Webhook>, unreadable: Webhook -> bool, w: Writer)
    ensures (forall k :: 0 <= k < |docs| ==> !unreadable(docs[k])) ==> WritesFor(docs, unreadable, w) == w
    ensures (exists k :: 0 <= k < |docs| && unreadable(docs[k])) ==>
      && WritesFor(docs, unreadable, w).headerSent
      && WritesFor(docs, unreadable, w).status == (if w.headerSent then w.status else StatusInternalServerError)
    ensures HasPrefix(WritesFor(docs, unreadable, w).body, w.body)
    decreases |docs|
  {
    if |docs| > 0 {
      var front := docs[..|docs| - 1];
      WritesForSpec(front, unreadable, w);
      assert forall k :: 0 <= k < |front| ==> front[k] == docs[k];
      if !unreadable(docs[|docs| - 1]) && exists k :: 0 <= k < |docs| && unreadable(docs[k]) {
        var k :| 0 <= k < |docs| && unreadable(docs[k]);
        assert k < |front| && unreadable(front[k]);
      }
    }
  }

  /**
   * An iteration that reaches its end starts one call per subscriber, in
   * collection order: the decoded webhook, or `Undecoded` where `DataTo`
   * fails. When every document decodes, nothing is written.
   */
  lemma TriggerFinished(hooks: seq<Webhook>, event: string, country: string,
                        unreadable: Webhook -> bool, w0: Writer)
    ensures var out, subs := TriggerSpec(hooks, event, country, None, unreadable, w0), Subscribers(hooks, event, country);
      && out.Finished?
      && |out.calls| == |subs|
      && (forall k :: 0 <= k < |subs| ==> out.calls[k] == CallFor(subs[k], unreadable))
      && ((forall k :: 0 <= k < |subs| ==> !unreadable(subs[k])) ==> out.w == w0)
  {
    var subs := Subscribers(hooks, event, country);
    assert subs[..|subs|] == subs;
    CallsForSpec(subs, unreadable);
    WritesForSpec(subs, unreadable, w0);
  }

  /**
   * A failing `Next` sends a 500, unless a status was already sent, and
   * appends its message to what the earlier rounds wrote. The handler then
   * panics: the calls started are exactly those for the documents before the
   * failure, in order, and nothing for the failing round.
   */
  lemma TriggerFailurePanics(hooks: seq<Webhook>, event: string, country: string, k: nat,
                             unreadable: Webhook -> bool, w0: Writer)
    ensures var out, subs := TriggerSpec(hooks, event, country, Some(k), unreadable, w0), Subscribers(hooks, event, country);
      var n := if k < |subs| then k else |subs|;
      && out.Aborted?
      && out.w.headerSent
      && out.w.status == (if w0.headerSent then w0.status else StatusInternalServerError)
      && out.w.body == WritesFor(subs[..n], unreadable, w0).body + IterationError + "\n"
      && HasPrefix(out.w.body, w0.body)
      && |out.calls| == n
      && (forall j :: 0 <= j < n ==> out.calls[j] == CallFor(subs[j], unreadable))
  {
    var subs := Subscribers(hooks, event, country);
    var n := if k < |subs| then k else |subs|;
    var w := WritesFor(subs[..n], unreadable, w0);
    assert TriggerSpec(hooks, event, country, Some(k), unreadable, w0) ==
      Aborted(Error(w, IterationError, StatusInternalServerError), CallsFor(subs[..n], unreadable));
    WritesKeepSentStatus(subs[..n], unreadable, w0);
    WritesForSpec(subs[..n], unreadable, w0);
    CallsForSpec(subs[..n], unreadable);
    assert forall j :: 0 <= j < n ==> subs[..n][j] == subs[j];
  }

  /** When the first `Next` fails on a fresh writer, the one 500 is all that is written, and nothing is called. */
  lemma FirstNextFails(hooks: seq<Webhook>, event: string, country: string, unreadable: Webhook -> bool)
    ensures TriggerSpec(hooks, event, country, Some(0), unreadable, Fresh) ==
      Aborted(Writer(true, StatusInternalServerError, IterationError + "\n"), [])
  {
    var subs := Subscribers(hooks, event, country);
    assert subs[..0] == [];
  }

  /** The documents' writes keep a status already sent, and can add none but a 500. */
  lemma WritesKeepSentStatus(docs: seq<Webhook>, unreadable: Webhook -> bool, w: Writer)
    ensures var after := WritesFor(docs, unreadable, w);
      (if after.headerSent then after.status else StatusInternalServerError) ==
      (if w.headerSent then w.status else StatusInternalServerError)
  {
    WritesForSpec(docs, unreadable, w);
    if exists k :: 0 <= k < |docs| && unreadable(docs[k]) {
    } else {
      assert WritesFor(docs, unreadable, w) == w;
    }
  }
  /** Whether some webhook is for `country`, looking from the front. */
  function AnyForCountry(hooks: seq<Webhook>, country: string): (b: bool)
    ensures b <==> exists i :: 0 <= i < |hooks| && ForCountry(hooks[i], country)
    decreases |hooks|
  {
    if |hooks| == 0 then false
    else if ForCountry(hooks[0], country) then true
    else
      var r := AnyForCountry(hooks[1..], country);
      assert forall i :: 1 <= i < |hooks| ==> hooks[i] == hooks[1..][i - 1];
      r
  }

  /**
   * `checkWebhook`: true when the country query returns a first document;
   * an empty result and a failing query both give false.
   */
  function CheckWebhook(hooks: seq<Webhook>, isocode: string, queryFails: bool): (b: bool)
    ensures b <==> !queryFails && exists h :: h in hooks && ForCountry(h, isocode)
  {
    !queryFails && AnyForCountry(hooks, isocode)
  }

  /** A webhook without a country answers every country. */
  lemma CheckWebhookCountryless(hooks: seq<Webhook>, isocode: string, h: Webhook)
    requires h in hooks && h.country == ""
    ensures CheckWebhook(hooks, isocode, false)
    ensures forall e :: h.event == e ==> h in Subscribers(hooks, e, isocode)
  {
    SubscribersSpec(hooks, h.event, isocode);
  }

  /**
   * A webhook stored by a registration is fired by its event for the
   * upper-cased country it was registered with, or for every country when it
   * was registered without one; a lower-case spelling of the same country
   * does not reach it. `taken` is whatever set the identifier loop checks, so
   * this holds for `PostWebhook` as written (the dashboards' identifiers) and
   * for `PostWebhookFixed` (the webhooks' identifiers) alike.
   */
  lemma RegisteredWebhookFires(body: Option<WebhookRegistration>, get: string -> Option<nat>,
                               attempts: seq<IdRetry.Attempt>, taken: set<string>, addFails: bool,
                               hooks: seq<Webhook>, event: string, country: string)
    requires IdRetry.Drawable(attempts)
    requires var out := PostWebhookSpec(body, get, attempts, taken, addFails, hooks); out.Done? && out.hooks != hooks
    ensures var out := PostWebhookSpec(body, get, attempts, taken, addFails, hooks);
      var added := out.hooks[|hooks|];
      added in Subscribers(out.hooks, event, country) <==>
        event == body.value.event && (country == ToUpper(body.value.country) || body.value.country == "")
  {
    var out := PostWebhookSpec(body, get, attempts, taken, addFails, hooks);
    PostWebhookStores(body, get, attempts, taken, addFails, hooks);
    SubscribersSpec(out.hooks, event, country);
    var added := out.hooks[|hooks|];
    assert added in out.hooks;
    assert ToUpper(body.value.country) == "" <==> body.value.country == "";
  }

  // ---------------------------------------------------------------------------
  // invocationHandler

  /**
   * `invocationHandler`: each of the four events runs `triggerEvent` on the
   * given writer; any other event is a 404.
   */
  method InvocationHandler(w0: Writer, event: string, country: string, hooks: seq<Webhook>,
                           failAt: Option<nat>, unreadable: Webhook -> bool)
    returns (out: Triggered)
    ensures event in Events ==> out == TriggerSpec(hooks, event, country, failAt, unreadable, w0)
    ensures event !in Events ==> out == Finished(Error(w0, "No webhook invocation", StatusNotFound), [])
  {
    if event == "REGISTER" {
      out := TriggerEvent(w0, event, country, hooks, failAt, unreadable);
    } else if event == "CHANGE" {
      out := TriggerEvent(w0, event, country, hooks, failAt, unreadable);
    } else if event == "DELETE" {
      out := TriggerEvent(w0, event, country, hooks, failAt, unreadable);
    } else if event == "INVOKE" {
      out := TriggerEvent(w0, event, country, hooks, failAt, unreadable);
    } else {
      out := Finished(Error(w0, "No webhook invocation", StatusNotFound), []);
    }
  }

  /**
   * A valid event whose query works and whose documents all decode writes
   * nothing and calls every subscriber with its webhook.
   */
  lemma InvocationCallsSubscribers(w0: Writer, event: string, country: string, hooks: seq<Webhook>,
                                   unreadable: Webhook -> bool)
    requires event in Events
    requires forall h :: h in hooks ==> !unreadable(h)
    ensures var out, subs := TriggerSpec(hooks, event, country, None, unreadable, w0), Subscribers(hooks, event, country);
      && out == Finished(w0, CallsFor(subs, unreadable))
      && |out.calls| == |subs|
      && (forall k :: 0 <= k < |subs| ==> out.calls[k] == Invoke(subs[k]))
  {
    var subs := Subscribers(hooks, event, country);
    SubscribersSpec(hooks, event, country);
    assert forall k :: 0 <= k < |subs| ==> subs[k] in hooks;
    TriggerFinished(hooks, event, country, unreadable, w0);
    assert subs[..|subs|] == subs;
  }

  // ---------------------------------------------------------------------------
  // deleteWebhook

  /** `deleteWebhook` for the request path `path`, with `deleteFails` a failing delete. */
  function DeleteWebhook(path: string, deleteFails: bool): Handled {
    var elem := Split(path, '/');
    if |elem| < 5 then Panicked
    else
      var webhookId := elem[4];
      if |webhookId| != 0 then
        if deleteFails then Replied(Error(Fresh, "Error deleting document", StatusInternalServerError))
        else Replied(WriteHeader(Fresh, StatusNoContent))
      else Replied(Error(Fresh, "Webhook ID not provided", StatusBadRequest))
  }

  /**
   * A path with fewer than five segments indexes past the split; otherwise
   * the reply is the 400 exactly when segment 4 is empty, and a 204 or a
   * 500 when it is not.
   */
  lemma DeleteWebhookNeedsId(path: string, deleteFails: bool)
    ensures DeleteWebhook(path, deleteFails).Panicked? <==> |Split(path, '/')| < 5
    ensures var elem, out := Split(path, '/'), DeleteWebhook(path, deleteFails);
      out.Replied? ==>
        && (out.w == Writer(true, StatusBadRequest, "Webhook ID not provided\n") <==> elem[4] == "")
        && (elem[4] != "" ==> out.w.status == (if deleteFails then StatusInternalServerError else StatusNoContent))
  {
  }

  /** The path of the delete test, which ends in an empty fifth segment. */
  lemma DeleteWebhookTestPath(deleteFails: bool)
    ensures DeleteWebhook("/dashboard/v1/webhook/", deleteFails) ==
      Replied(Writer(true, StatusBadRequest, "Webhook ID not provided\n"))
  {
    TestPathSplit();
    EmptyIdRejected("/dashboard/v1/webhook/", deleteFails);
  }

  /** A path whose segment 4 exists and is empty gets the 400, whatever the delete would do. */
  lemma EmptyIdRejected(path: string, deleteFails: bool)
    requires |Split(path, '/')| >= 5 && Split(path, '/')[4] == ""
    ensures DeleteWebhook(path, deleteFails) ==
      Replied(Writer(true, StatusBadRequest, "Webhook ID not provided\n"))
  {
  }

  lemma TestPathSplit()
    ensures Split("/dashboard/v1/webhook/", '/') == ["", "dashboard", "v1", "webhook", ""]
  {
    TestPathShape();
    Registration.SegmentNamesHaveNoSlash();
    Registration.SplitSegments("dashboard", "v1", "webhook", "");
  }

  lemma TestPathShape()
    ensures "/dashboard/v1/webhook/" == [] + ['/'] + ("dashboard" + ['/'] + ("v1" + ['/'] + ("webhook" + ['/'] + "")))
  {
  }

  /** Under the notifications path, a non-empty identifier without '/' is deleted or fails with a 500. */
  lemma DeleteWebhookUnderPath(id: string, deleteFails: bool)
    requires id != "" && '/' !in id
    ensures DeleteWebhook(NotificationPath + id, deleteFails) ==
      Replied(if deleteFails then Writer(true, StatusInternalServerError, "Error deleting document\n")
              else Writer(true, StatusNoContent, ""))
  {
    NotificationPathShape(id);
    Registration.SegmentNamesHaveNoSlash();
    Registration.SplitSegments("dashboard", "v1", "notifications", id);
  }

  lemma NotificationPathShape(id: string)
    ensures NotificationPath + id == [] + ['/'] + ("dashboard" + ['/'] + ("v1" + ['/'] + ("notifications" + ['/'] + id)))
  {
    assert NotificationPath == "/" + "dashboard" + "/" + "v1" + "/" + "notifications" + "/";
  }

  // ---------------------------------------------------------------------------
  // NotificationHandler

  /** Where `NotificationHandler` sends a request, by method. */
  datatype NotificationRoute = ToPost | ToDelete | ToGet | Refused(w: Writer)

  function RouteNotification(verb: string): NotificationRoute {
    if verb == "POST" then ToPost
    else if verb == "DELETE" then ToDelete
    else if verb == "GET" then ToGet
    else Refused(Error(Fresh, "Method " + verb + " not supported for " + NotificationPath, StatusMethodNotAllowed))
  }

  /** The routing table, and the 405 naming the method and the path for anything else. */
  lemma RouteNotificationTable(verb: string)
    ensures RouteNotification(verb) == ToPost <==> verb == "POST"
    ensures RouteNotification(verb) == ToDelete <==> verb == "DELETE"
    ensures RouteNotification(verb) == ToGet <==> verb == "GET"
    ensures RouteNotification(verb).Refused? <==> verb !in {"POST", "DELETE", "GET"}
    ensures RouteNotification(verb).Refused? ==>
      RouteNotification(verb).w ==
        Writer(true, StatusMethodNotAllowed, "Method " + verb + " not supported for /dashboard/v1/notifications/\n")
  {
  }
}
