/**
 * The HTTP routes of api/main.py: `POST /pet` (create the order, save the uploads,
 * open an Asaas checkout), `POST /webhook/asaas` and `GET /order/{order_id}`.
 * Environment variables, the uuid, the clock and the Asaas reply are parameters.
 */
module Routes {
  import opened Wrappers
  import opened Text
  import opened JsonValue
  import opened Files
  import opened Store
  import opened Asaas

  const MaxFiles := 5
  const MaxFileBytes := 10 * 1024 * 1024
  const HttpScheme := "http://"
  const HttpsScheme := "https://"
  const LocalHost := "localhost"
  const LoopbackIp := "127.0.0.1"
  const DefaultFrontendBase := HttpScheme + LocalHost + ":5500"
  const SuccessPath := "/?checkout=success"
  const CancelPath := "/?checkout=cancel"

  /** One `pet-file` part; a missing or empty file name is `""` (both are falsy). */
  datatype Upload = Upload(filename: string, content: Bytes)

  /** The form of `POST /pet`. */
  datatype PetRequest = PetRequest(petName: string, userEmail: string, files: seq<Upload>)

  /** FRONTEND_BASE_URL, ASAAS_API_KEY and ASAAS_PRODUCTION, None when unset. */
  datatype PetEnv = PetEnv(frontendBaseUrl: Option<string>, asaasApiKey: Option<string>, asaasProduction: Option<string>)

  /** The HTTPExceptions `create_pet` raises. */
  datatype PetError = TooManyFiles | FileTooBig(filename: string) | LoopbackReturnUrl | PlainHttpReturnUrl | CheckoutFailed {
    function StatusCode(): nat {
      if CheckoutFailed? then 502 else 400
    }
  }

  // ---------------------------------------------------------------------------
  // Saving the uploads.

  /** The folder after the upload loop, the names saved, and the first name found too big. */
  datatype Saved = Saved(files: map<(string, string), Bytes>, names: seq<string>, tooBig: Option<string>)

  /** The `for f in pet_file` loop from `us` on, with the folder and names so far. */
  function SaveUploads(orderId: string, us: seq<Upload>, files: map<(string, string), Bytes>, names: seq<string>): Saved
    decreases |us|
  {
    if us == [] then Saved(files, names, None)
    else
      var u := us[0];
      if u.filename == "" then SaveUploads(orderId, us[1..], files, names)
      else if |u.content| > MaxFileBytes then Saved(files, names, Some(u.filename))
      else SaveUploads(orderId, us[1..], files[(orderId, u.filename) := u.content], names + [u.filename])
  }

  /** The names of the uploads that carry one, in order. */
  function NamedFiles(us: seq<Upload>): (r: seq<string>)
    ensures |r| <= |us|
    ensures forall n :: n in r <==> exists j :: 0 <= j < |us| && us[j].filename == n && n != ""
  {
    if us == [] then []
    else
      var rest := NamedFiles(us[1..]);
      assert forall j :: 1 <= j < |us| ==> us[j] == us[1..][j - 1];
      if us[0].filename == "" then rest else [us[0].filename] + rest
  }

  /**
   * The loop stops at the first named upload over the limit, and only there; otherwise
   * it saves every named upload, in order, and the folder holds each of them.
   */
  lemma SaveUploadsFacts(orderId: string, us: seq<Upload>, files: map<(string, string), Bytes>, names: seq<string>)
    ensures var s := SaveUploads(orderId, us, files, names);
      && files.Keys <= s.files.Keys
      && (s.tooBig.None? <==> forall j :: 0 <= j < |us| && us[j].filename != "" ==> |us[j].content| <= MaxFileBytes)
      && (s.tooBig.None? ==> s.names == names + NamedFiles(us))
      && (s.tooBig.Some? ==> exists j :: (0 <= j < |us| && us[j].filename == s.tooBig.value && us[j].filename != ""
            && |us[j].content| > MaxFileBytes
            && forall k :: 0 <= k < j && us[k].filename != "" ==> |us[k].content| <= MaxFileBytes))
      && forall n :: n in s.names && n !in names ==> (orderId, n) in s.files
  {
    SaveUploadsKeep(orderId, us, files, names);
    SaveUploadsStop(orderId, us, files, names);
    SaveUploadsNames(orderId, us, files, names);
  }

  /** The loop removes no file, and every name it records is saved in the folder. */
  lemma {:induction false} SaveUploadsKeep(orderId: string, us: seq<Upload>, files: map<(string, string), Bytes>, names: seq<string>)
    ensures var s := SaveUploads(orderId, us, files, names);
      && files.Keys <= s.files.Keys
      && forall n :: n in s.names && n !in names ==> (orderId, n) in s.files
    decreases |us|
  {
    if us != [] {
      var u := us[0];
      if u.filename == "" {
        SaveUploadsKeep(orderId, us[1..], files, names);
      } else if |u.content| <= MaxFileBytes {
        SaveUploadsKeep(orderId, us[1..], files[(orderId, u.filename) := u.content], names + [u.filename]);
      }
    }
  }

  /** The loop stops exactly at the first named upload over the limit. */
  lemma {:induction false} SaveUploadsStop(orderId: string, us: seq<Upload>, files: map<(string, string), Bytes>, names: seq<string>)
    ensures var s := SaveUploads(orderId, us, files, names);
      && (s.tooBig.None? <==> forall j :: 0 <= j < |us| && us[j].filename != "" ==> |us[j].content| <= MaxFileBytes)
      && (s.tooBig.Some? ==> exists j :: (0 <= j < |us| && us[j].filename == s.tooBig.value && us[j].filename != ""
            && |us[j].content| > MaxFileBytes
            && forall k :: 0 <= k < j && us[k].filename != "" ==> |us[k].content| <= MaxFileBytes))
    decreases |us|
  {
    if us != [] {
      var u := us[0];
      assert forall j :: 1 <= j < |us| ==> us[j] == us[1..][j - 1];
      if u.filename == "" || |u.content| <= MaxFileBytes {
        var files' := if u.filename == "" then files else files[(orderId, u.filename) := u.content];
        var names' := if u.filename == "" then names else names + [u.filename];
        assert SaveUploads(orderId, us, files, names) == SaveUploads(orderId, us[1..], files', names');
        SaveUploadsStop(orderId, us[1..], files', names');
        var s := SaveUploads(orderId, us[1..], files', names');
        if s.tooBig.Some? {
          var j :| 0 <= j < |us[1..]| && us[1..][j].filename == s.tooBig.value && us[1..][j].filename != ""
            && |us[1..][j].content| > MaxFileBytes
            && forall k :: 0 <= k < j && us[1..][k].filename != "" ==> |us[1..][k].content| <= MaxFileBytes;
          assert us[j + 1].filename == s.tooBig.value;
          assert forall k :: 0 <= k < j + 1 && us[k].filename != "" ==> |us[k].content| <= MaxFileBytes;
        }
      }
    }
  }

  /** When no upload is too big, the recorded names are the named uploads, in order. */
  lemma {:induction false} SaveUploadsNames(orderId: string, us: seq<Upload>, files: map<(string, string), Bytes>, names: seq<string>)
    ensures var s := SaveUploads(orderId, us, files, names);
      s.tooBig.None? ==> s.names == names + NamedFiles(us)
    decreases |us|
  {
    if us != [] {
      var u := us[0];
      if u.filename == "" {
        SaveUploadsNames(orderId, us[1..], files, names);
      } else if |u.content| <= MaxFileBytes {
        SaveUploadsNames(orderId, us[1..], files[(orderId, u.filename) := u.content], names + [u.filename]);
        assert names + [u.filename] + NamedFiles(us[1..]) == names + NamedFiles(us);
      }
    }
  }

  // ---------------------------------------------------------------------------
  // The return URLs.

  /** FRONTEND_BASE_URL stripped and without trailing slashes, as the code first reads it. */
  function RawBase(env: Option<string>): string {
    TrimRight(PyStrip(env.GetOr("")), {'/'})
  }

  /** The base after the default and the `http://` prefix are applied. */
  function NormalisedBase(env: Option<string>): string {
    var raw := RawBase(env);
    var base := if raw == "" then DefaultFrontendBase else raw;
    if !StartsWith(base, HttpScheme) && !StartsWith(base, HttpsScheme) then HttpScheme + base else base
  }

  /** The two checks on the base: no loopback host, and no plain `http://`. */
  function ReturnBase(env: Option<string>): Result<string, PetError> {
    var base := NormalisedBase(env);
    if Contains(base, LocalHost) || Contains(base, LoopbackIp) then Err(LoopbackReturnUrl)
    else if StartsWith(base, HttpScheme) && !StartsWith(base, HttpScheme + LocalHost) then Err(PlainHttpReturnUrl)
    else Ok(base)
  }

  /**
   * The `not base.startswith("http://localhost")` test never decides anything: a base
   * that starts so already failed the loopback check.
   */
  lemma HttpLocalhostExceptionUnreachable(base: string)
    requires StartsWith(base, HttpScheme + LocalHost)
    ensures Contains(base, LocalHost)
  {
    StartsWithSplit(base, HttpScheme, LocalHost);
  }

  /** No string starts with both schemes. */
  lemma SchemesExclusive(s: string)
    ensures !(StartsWith(s, HttpScheme) && StartsWith(s, HttpsScheme))
  {
    assert StartsWith(s, HttpScheme) ==> s[4] == HttpScheme[4] == ':';
    assert StartsWith(s, HttpsScheme) ==> s[4] == HttpsScheme[4] == 's';
  }

  /**
   * A return base is accepted exactly when the configured value is an `https://` URL
   * that names neither `localhost` nor `127.0.0.1`; it is then used as it is.
   */
  lemma ReturnBaseAccepted(env: Option<string>)
    ensures var raw := RawBase(env);
      ReturnBase(env).Ok? <==> (StartsWith(raw, HttpsScheme) && !Contains(raw, LocalHost) && !Contains(raw, LoopbackIp))
    ensures ReturnBase(env).Ok? ==> ReturnBase(env).value == RawBase(env)
  {
    var raw := RawBase(env);
    var base := NormalisedBase(env);
    SchemesExclusive(raw);
    if StartsWith(base, HttpScheme + LocalHost) {
      HttpLocalhostExceptionUnreachable(base);
    }
    if raw == "" {
      DefaultBaseRejected(env);
    } else if !StartsWith(raw, HttpScheme) && !StartsWith(raw, HttpsScheme) {
      assert base == HttpScheme + raw;
      StartsWithAppend(HttpScheme, raw);
    }
  }

  /** With FRONTEND_BASE_URL unset or blank the default `http://localhost:5500` is refused. */
  lemma DefaultBaseRejected(env: Option<string>)
    requires RawBase(env) == ""
    ensures ReturnBase(env) == Err(LoopbackReturnUrl)
  {
    StartsWithAppend(HttpScheme + LocalHost, ":5500");
    StartsWithSplit(DefaultFrontendBase, HttpScheme, LocalHost);
    assert NormalisedBase(env) == DefaultFrontendBase;
  }

  // ---------------------------------------------------------------------------
  // POST /pet

  /**
   * The store, the uploads folder, the response (`checkout_url`, or the HTTPException),
   * and the request sent to Asaas, None when `create_pet` stops before sending one.
   */
  datatype PetState = PetState(orders: map<string, Order>, ids: seq<string>, files: map<(string, string), Bytes>,
                               response: Result<string, PetError>, request: Option<CheckoutRequest>)

  /** The checkout step: `criar_checkout` with the two return URLs, then storing its id. */
  function CheckoutStep(orders: map<string, Order>, ids: seq<string>, files: map<(string, string), Bytes>,
                        orderId: string, req: PetRequest, env: PetEnv, base: string, reply: AsaasReply): PetState
    requires orderId in orders
  {
    var call := CriarCheckout(env.asaasApiKey, env.asaasProduction, orderId, req.petName, req.userEmail,
                              base + SuccessPath, base + CancelPath, reply);
    match call.result
    case Err(_) => PetState(orders, ids, files, Err(CheckoutFailed), call.request)
    case Ok(c) => PetState(orders[orderId := WithCheckoutId(orders[orderId], c.id)], ids, files, Ok(c.checkoutUrl), call.request)
  }

  /**
   * The checkout step answers 502 and changes nothing when Asaas gives no checkout, and
   * otherwise stores the id Asaas sent and answers with that checkout's page.
   */
  lemma CheckoutStepFacts(orders: map<string, Order>, ids: seq<string>, files: map<(string, string), Bytes>,
                          orderId: string, req: PetRequest, env: PetEnv, base: string, reply: AsaasReply)
    requires orderId in orders
    ensures var st := CheckoutStep(orders, ids, files, orderId, req, env, base, reply);
      && st.ids == ids && st.files == files
      && (st.response.Err? ==> st.orders == orders && st.response == Err(CheckoutFailed))
      && (st.response.Ok? ==>
            (reply.Replied? && reply.id.Some?
             && st.orders == orders[orderId := WithCheckoutId(orders[orderId], reply.id.value)]
             && st.response.value == CheckoutPageUrl(env.asaasProduction, reply.id.value)
             && CheckoutIdOfPageUrl(st.response.value) == reply.id))
      && (st.response.Ok? ==> st.request.Some?)
      && (st.request.Some? ==> st.request.value == CheckoutRequest(
            BaseUrl(env.asaasProduction) + "/v3/checkouts", PyStrip(env.asaasApiKey.GetOr("")),
            BuildPayload(orderId, req.petName, req.userEmail, base + SuccessPath, base + CancelPath)))
  {
  }

  /** The rest of `create_pet` once the order is stored and the uploads are saved. */
  function AfterSave(orders: map<string, Order>, ids: seq<string>, saved: Saved,
                     req: PetRequest, env: PetEnv, orderId: string, base: Result<string, PetError>, reply: AsaasReply): PetState
    requires orderId in orders
  {
    if saved.tooBig.Some? then PetState(orders, ids, saved.files, Err(FileTooBig(saved.tooBig.value)), None)
    else
      var orders2 := orders[orderId := WithFileNames(orders[orderId], saved.names)];
      match base
      case Err(e) => PetState(orders2, ids, saved.files, Err(e), None)
      case Ok(base) => CheckoutStep(orders2, ids, saved.files, orderId, req, env, base, reply)
  }

  /** `create_pet`; `newId` is the uuid `create_order` draws and `now` the clock. */
  function CreatePetFlow(orders: map<string, Order>, ids: seq<string>, files: map<(string, string), Bytes>,
                         req: PetRequest, env: PetEnv, newId: string, now: string, reply: AsaasReply): PetState
  {
    if |req.files| > MaxFiles then PetState(orders, ids, files, Err(TooManyFiles), None)
    else
      AfterSave(orders[newId := NewOrder(newId, req.petName, req.userEmail, [], now)],
                if newId in orders then ids else ids + [newId],
                SaveUploads(newId, req.files, files, []), req, env, newId, ReturnBase(env.frontendBaseUrl), reply)
  }

  /**
   * After the stored order, only that order changes: its file names (once the uploads
   * are saved) and its checkout id (exactly when the request succeeds).
   */
  lemma AfterSaveFacts(orders: map<string, Order>, ids: seq<string>, saved: Saved,
                       req: PetRequest, env: PetEnv, orderId: string, base: Result<string, PetError>, reply: AsaasReply)
    requires orderId in orders
    ensures var st := AfterSave(orders, ids, saved, req, env, orderId, base, reply);
      && st.ids == ids && st.files == saved.files && orderId in st.orders && st.orders.Keys == orders.Keys
      && (forall k :: k in orders && k != orderId ==> st.orders[k] == orders[k])
      && st.orders[orderId].pagamento == orders[orderId].pagamento
      && st.orders[orderId].status == orders[orderId].status
      && (saved.tooBig.None? ==> st.orders[orderId].fileNames == saved.names)
      && (st.response.Err? ==> st.orders[orderId].asaasCheckoutId == orders[orderId].asaasCheckoutId)
      && (st.response.Ok? ==>
            (reply.Replied? && reply.id.Some?
             && st.orders[orderId].asaasCheckoutId == reply.id
             && CheckoutIdOfPageUrl(st.response.value) == reply.id))
  {
    var st := AfterSave(orders, ids, saved, req, env, orderId, base, reply);
    if saved.tooBig.None? {
      var orders2 := orders[orderId := WithFileNames(orders[orderId], saved.names)];
      assert orders2.Keys == orders.Keys;
      if base.Ok? {
        assert st == CheckoutStep(orders2, ids, saved.files, orderId, req, env, base.value, reply);
        CheckoutStepFacts(orders2, ids, saved.files, orderId, req, env, base.value, reply);
        if st.response.Ok? {
          var o2 := WithCheckoutId(orders2[orderId], reply.id.value);
          assert st.orders == orders2[orderId := o2];
        }
      } else {
        assert st == PetState(orders2, ids, saved.files, Err(base.error), None);
      }
    } else {
      assert st == PetState(orders, ids, saved.files, Err(FileTooBig(saved.tooBig.value)), None);
    }
  }

  /** More than five files are refused before anything is stored or written. */
  lemma TooManyFilesStoresNothing(orders: map<string, Order>, ids: seq<string>, files: map<(string, string), Bytes>,
                                  req: PetRequest, env: PetEnv, newId: string, now: string, reply: AsaasReply)
    requires |req.files| > MaxFiles
    ensures CreatePetFlow(orders, ids, files, req, env, newId, now, reply) == PetState(orders, ids, files, Err(TooManyFiles), None)
  {
  }

  /**
   * Past the count check the order is stored whatever happens next: a later 400 or 502
   * leaves it behind, unpaid and without a checkout id, so no webhook can ever mark it.
   */
  lemma FailedRequestLeavesOrphanOrder(orders: map<string, Order>, ids: seq<string>, files: map<(string, string), Bytes>,
                                       req: PetRequest, env: PetEnv, newId: string, now: string, reply: AsaasReply,
                                       body: Json)
    requires KeyOrder(ids, orders) && |req.files| <= MaxFiles
    requires CreatePetFlow(orders, ids, files, req, env, newId, now, reply).response.Err?
    ensures var st := CreatePetFlow(orders, ids, files, req, env, newId, now, reply);
      && KeyOrder(st.ids, st.orders)
      && newId in st.orders && st.orders[newId].pagamento == Pending && st.orders[newId].asaasCheckoutId == None
      && WebhookTarget(body, st.ids, st.orders) != Ok(Some(newId))
  {
    var orders1 := orders[newId := NewOrder(newId, req.petName, req.userEmail, [], now)];
    var ids1 := if newId in orders then ids else ids + [newId];
    KeyOrderPut(ids, orders, newId, NewOrder(newId, req.petName, req.userEmail, [], now));
    AfterSaveFacts(orders1, ids1, SaveUploads(newId, req.files, files, []), req, env, newId,
                     ReturnBase(env.frontendBaseUrl), reply);
    var st := CreatePetFlow(orders, ids, files, req, env, newId, now, reply);
    assert KeyOrder(st.ids, st.orders);
    WebhookTargetIsStored(body, st.ids, st.orders);
  }

  /**
   * A successful request stores the Asaas checkout id on the new order, returns the
   * checkout page of that id, and records every named upload.
   */
  lemma SuccessLinksCheckout(orders: map<string, Order>, ids: seq<string>, files: map<(string, string), Bytes>,
                             req: PetRequest, env: PetEnv, newId: string, now: string, reply: AsaasReply)
    requires CreatePetFlow(orders, ids, files, req, env, newId, now, reply).response.Ok?
    ensures var st := CreatePetFlow(orders, ids, files, req, env, newId, now, reply);
      && reply.Replied? && reply.id.Some?
      && newId in st.orders && st.orders[newId].asaasCheckoutId == reply.id
      && CheckoutIdOfPageUrl(st.response.value) == reply.id
      && st.orders[newId].fileNames == NamedFiles(req.files)
      && st.orders[newId].pagamento == Pending && st.orders[newId].status == Pending
      && forall n :: n in NamedFiles(req.files) ==> (newId, n) in st.files
  {
    var orders1 := orders[newId := NewOrder(newId, req.petName, req.userEmail, [], now)];
    var ids1 := if newId in orders then ids else ids + [newId];
    var saved := SaveUploads(newId, req.files, files, []);
    SaveUploadsFacts(newId, req.files, files, []);
    AfterSaveFacts(orders1, ids1, saved, req, env, newId, ReturnBase(env.frontendBaseUrl), reply);
    assert [] + NamedFiles(req.files) == NamedFiles(req.files);
  }

  /** `create_pet` leaves every other order as it was, keeps the store's key order, and removes no file. */
  lemma CreatePetTouchesOnlyItsOrder(orders: map<string, Order>, ids: seq<string>, files: map<(string, string), Bytes>,
                                     req: PetRequest, env: PetEnv, newId: string, now: string, reply: AsaasReply)
    requires KeyOrder(ids, orders)
    ensures var st := CreatePetFlow(orders, ids, files, req, env, newId, now, reply);
      && KeyOrder(st.ids, st.orders)
      && (forall k :: k in orders && k != newId ==> k in st.orders && st.orders[k] == orders[k])
      && files.Keys <= st.files.Keys
  {
    if |req.files| <= MaxFiles {
      var created := NewOrder(newId, req.petName, req.userEmail, [], now);
      var orders1 := orders[newId := created];
      var ids1 := if newId in orders then ids else ids + [newId];
      var saved := SaveUploads(newId, req.files, files, []);
      var base := ReturnBase(env.frontendBaseUrl);
      KeyOrderPut(ids, orders, newId, created);
      SaveUploadsFacts(newId, req.files, files, []);
      AfterSaveFacts(orders1, ids1, saved, req, env, newId, base, reply);
      var st := AfterSave(orders1, ids1, saved, req, env, newId, base, reply);
      assert st == CreatePetFlow(orders, ids, files, req, env, newId, now, reply);
      KeyOrderSameKeys(ids1, orders1, st.orders);
    }
  }

  /** The request of `AfterSave`: sent only past the size and return-URL checks, with that base's URLs. */
  lemma AfterSaveRequest(orders: map<string, Order>, ids: seq<string>, saved: Saved,
                         req: PetRequest, env: PetEnv, orderId: string, base: Result<string, PetError>, reply: AsaasReply)
    requires orderId in orders
    ensures var st := AfterSave(orders, ids, saved, req, env, orderId, base, reply);
      && (st.response.Ok? ==> st.request.Some?)
      && (st.response.Err? && st.response.error.StatusCode() == 400 ==> st.request.None?)
      && (st.request.Some? ==>
            && saved.tooBig.None? && base.Ok?
            && st.request.value == CheckoutRequest(
                 BaseUrl(env.asaasProduction) + "/v3/checkouts", PyStrip(env.asaasApiKey.GetOr("")),
                 BuildPayload(orderId, req.petName, req.userEmail, base.value + SuccessPath, base.value + CancelPath)))
  {
    var st := AfterSave(orders, ids, saved, req, env, orderId, base, reply);
    if saved.tooBig.None? {
      var orders2 := orders[orderId := WithFileNames(orders[orderId], saved.names)];
      if base.Ok? {
        assert st == CheckoutStep(orders2, ids, saved.files, orderId, req, env, base.value, reply);
        CheckoutStepFacts(orders2, ids, saved.files, orderId, req, env, base.value, reply);
      } else {
        assert st == PetState(orders2, ids, saved.files, Err(base.error), None);
      }
    } else {
      assert st == PetState(orders, ids, saved.files, Err(FileTooBig(saved.tooBig.value)), None);
    }
  }

  /**
   * The request `create_pet` sends to Asaas. It goes out only past the count, size and
   * return-URL checks, so no 400 sends one, and a success always did. Its return URLs
   * are the accepted `https://` base with `/?checkout=success` and `/?checkout=cancel`,
   * and its `externalReference` is the new order's id.
   */
  lemma CheckoutRequestFacts(orders: map<string, Order>, ids: seq<string>, files: map<(string, string), Bytes>,
                             req: PetRequest, env: PetEnv, newId: string, now: string, reply: AsaasReply)
    ensures var st := CreatePetFlow(orders, ids, files, req, env, newId, now, reply);
      && (st.response.Ok? ==> st.request.Some?)
      && (st.response.Err? && st.response.error.StatusCode() == 400 ==> st.request.None?)
      && (st.request.Some? ==>
            && |req.files| <= MaxFiles && SaveUploads(newId, req.files, files, []).tooBig.None?
            && ReturnBase(env.frontendBaseUrl) == Ok(RawBase(env.frontendBaseUrl))
            && StartsWith(RawBase(env.frontendBaseUrl), HttpsScheme)
            && st.request.value.payload.successUrl == RawBase(env.frontendBaseUrl) + SuccessPath
            && st.request.value.payload.cancelUrl == RawBase(env.frontendBaseUrl) + CancelPath
            && st.request.value.payload.externalReference == newId
            && st.request.value.payload.customerEmail == req.userEmail
            && st.request.value.url == BaseUrl(env.asaasProduction) + "/v3/checkouts")
  {
    var st := CreatePetFlow(orders, ids, files, req, env, newId, now, reply);
    if |req.files| <= MaxFiles {
      var orders1 := orders[newId := NewOrder(newId, req.petName, req.userEmail, [], now)];
      var ids1 := if newId in orders then ids else ids + [newId];
      var saved := SaveUploads(newId, req.files, files, []);
      var base := ReturnBase(env.frontendBaseUrl);
      assert st == AfterSave(orders1, ids1, saved, req, env, newId, base, reply);
      AfterSaveRequest(orders1, ids1, saved, req, env, newId, base, reply);
      ReturnBaseAccepted(env.frontendBaseUrl);
    }
  }

  /** The upload loop, writing into the folder. */
  method SaveUploadFiles(uploads: UploadsDir, orderId: string, us: seq<Upload>)
    returns (names: seq<string>, tooBig: Option<string>)
    modifies uploads
    ensures Saved(uploads.files, names, tooBig) == SaveUploads(orderId, us, old(uploads.files), [])
  {
    names := [];
    var i := 0;
    while i < |us|
      invariant 0 <= i <= |us|
      invariant SaveUploads(orderId, us[i..], uploads.files, names) == SaveUploads(orderId, us, old(uploads.files), [])
    {
      var f := us[i];
      assert us[i..][1..] == us[i + 1..];
      if f.filename != "" {
        if |f.content| > MaxFileBytes {
          return names, Some(f.filename);
        }
        uploads.WriteBytes(orderId, f.filename, f.content);
        names := names + [f.filename];
      }
      i := i + 1;
    }
    tooBig := None;
  }

  /** `create_pet` on the store and the uploads folder. */
  method CreatePet(store: OrderStore, uploads: UploadsDir, req: PetRequest, env: PetEnv,
                   newId: string, now: string, reply: AsaasReply)
    returns (response: Result<string, PetError>, request: Option<CheckoutRequest>)
    requires store.Valid()
    modifies store, uploads
    ensures store.Valid()
    ensures PetState(store.orders, store.ids, uploads.files, response, request)
      == CreatePetFlow(old(store.orders), old(store.ids), old(uploads.files), req, env, newId, now, reply)
  {
    if |req.files| > MaxFiles {
      return Err(TooManyFiles), None;
    }
    var orderId := store.CreateOrder(req.petName, req.userEmail, [], newId, now);
    var fileNames, tooBig := SaveUploadFiles(uploads, orderId, req.files);
    if tooBig.Some? {
      return Err(FileTooBig(tooBig.value)), None;
    }
    var _ := store.UpdateOrderFileNames(orderId, fileNames);
    var base := ReturnBase(env.frontendBaseUrl);
    if base.Err? {
      return Err(base.error), None;
    }
    var call := CriarCheckout(env.asaasApiKey, env.asaasProduction, orderId, req.petName, req.userEmail,
                              base.value + SuccessPath, base.value + CancelPath, reply);
    if call.result.Err? {
      return Err(CheckoutFailed), call.request;
    }
    var _ := store.UpdateOrderAsaasCheckoutId(orderId, call.result.value.id);
    return Ok(call.result.value.checkoutUrl), call.request;
  }

  // ---------------------------------------------------------------------------
  // POST /webhook/asaas

  /** A dictionary key as Python sees it: `processar_webhook`'s result is a bool, store keys are str. */
  datatype PyKey = KStr(s: string) | KBool(b: bool)

  /** `store.get_order(key)`: `orders.get(key)`; a bool key equals no str key. */
  function GetOrderByKey(orders: map<string, Order>, key: PyKey): (r: Option<Order>)
    ensures r.Some? <==> key.KStr? && key.s in orders
  {
    match key
    case KStr(s) => if s in orders then Some(orders[s]) else None
    case KBool(_) => None
  }

  /**
   * The webhook's answer: 401, `{}`, `{"received": True}`, or a 500 from an exception.
   * The 500 carries the exception's text as the record of its cause; the body sent is
   * FastAPI's fixed `Internal Server Error`.
   */
  datatype WebhookResponse = Unauthorized | EmptyAck | Received | ServerError(message: string) {
    function StatusCode(): nat {
      match this
      case Unauthorized => 401
      case ServerError(_) => 500
      case _ => 200
    }
  }

  /**
   * The task the route queues, as written: `order_id` is the bool `processar_webhook`
   * returned, and `store.get_order(order_id)` is looked up with it.
   */
  function ScheduledAsWritten(processed: Result<bool, string>, orders: map<string, Order>): Option<Order> {
    if processed == Ok(true) then GetOrderByKey(orders, KBool(true)) else None
  }

  /**
   * Concretely: a CHECKOUT_PAID event for a stored checkout marks the order paid, yet no
   * task is queued for it.
   */
  lemma PaidEventQueuesNothing(now: string)
    ensures var o := Order("a", "Rex", "r@x", [], Pending, Pending, Some("c"), "t", None, None, None);
      var body := JObj(map["event" := JStr(CheckoutPaid), "checkout" := JObj(map["id" := JStr("c")])]);
      var t := WebhookTarget(body, ["a"], map["a" := o]);
      && t == Ok(Some("a"))
      && ReadyForProduction(MarkPaid(map["a" := o], t.value, now)["a"])
      && ScheduledAsWritten(Ok(t.value.Some?), MarkPaid(map["a" := o], t.value, now)) == None
  {
    var o := Order("a", "Rex", "r@x", [], Pending, Pending, Some("c"), "t", None, None, None);
    var body := JObj(map["event" := JStr(CheckoutPaid), "checkout" := JObj(map["id" := JStr("c")])]);
    var orders := map["a" := o];
    assert Get(body.fields, "event") == JStr(CheckoutPaid);
    var checkout := Get(body.fields, "checkout");
    assert "id" in checkout.fields;
    assert checkout.fields != map[];
    assert Get(checkout.fields, "id") == JStr("c");
    assert ["a"][0] == "a" && orders["a"].asaasCheckoutId == Some("c");
    assert FindByCheckoutId(["a"], orders, "c") == Some(o);
    var t := WebhookTarget(body, ["a"], orders);
    assert t == Ok(Some("a"));
    var after := MarkPaid(orders, t.value, now);
    assert after["a"] == WithPagamento(o, PaymentConfirmed, now);
  }

  /** The task the route queues when `processar_webhook` hands back the order id. */
  function ScheduledFixed(target: Result<Option<string>, string>, orders: map<string, Order>): Option<Order> {
    if target.Ok? && target.value.Some? then
      match GetOrderByKey(orders, KStr(target.value.value))
      case None => None
      case Some(order) => Some(order.(orderId := target.value.value))
    else None
  }

  /**
   * With the id handed back, the route queues exactly the order the event marked paid,
   * exactly when the as-written `processar_webhook` reports True; the queued pedido is
   * then ready for production unless it was already produced.
   */
  lemma FixedSchedulesMarkedOrder(body: Json, ids: seq<string>, orders: map<string, Order>, now: string)
    requires KeyOrder(ids, orders)
    ensures var t := WebhookTarget(body, ids, orders);
      var after := if t.Ok? then MarkPaid(orders, t.value, now) else orders;
      var p := ScheduledFixed(t, after);
      && (p.Some? <==> t.Ok? && t.value.Some?)
      && (p.Some? ==>
            (p.value.orderId == t.value.value && p.value.pagamento == PaymentConfirmed
             && (ReadyForProduction(p.value) <==> orders[t.value.value].status == Pending)))
  {
    WebhookTargetIsStored(body, ids, orders);
  }

  /** The checks before `processar_webhook`: the token, then the body. */
  function WebhookGate(receivedToken: Option<string>, tokenEnv: Option<string>, body: Option<Json>): Option<WebhookResponse> {
    if !WebhookTokenValido(receivedToken, Some(PyStrip(tokenEnv.GetOr("")))) then Some(Unauthorized)
    else if body.None? then Some(EmptyAck)
    else None
  }

  /** A configured token turns away every request that does not carry it; an unset one lets all in. */
  lemma WebhookGateToken(receivedToken: Option<string>, tokenEnv: Option<string>, body: Option<Json>)
    ensures var expected := PyStrip(tokenEnv.GetOr(""));
      && (expected == "" ==> WebhookGate(receivedToken, tokenEnv, body) != Some(Unauthorized))
      && (expected != "" ==> (WebhookGate(receivedToken, tokenEnv, body) == Some(Unauthorized)
                              <==> PyStrip(receivedToken.GetOr("")) != expected))
  {
    var expected := PyStrip(tokenEnv.GetOr(""));
    StripIdempotent(tokenEnv.GetOr(""), PyWhitespace);
    assert PyStrip(Some(expected).GetOr("")) == expected;
    assert WebhookTokenValido(receivedToken, Some(expected))
      == (expected == "" || PyStrip(receivedToken.GetOr("")) == expected);
  }

  /**
   * `webhook_asaas` as written. `body` is None when `request.json()` fails. `scheduled`
   * is the pedido handed to `background_tasks.add_task`, if any.
   */
  method WebhookAsaas(store: OrderStore, receivedToken: Option<string>, tokenEnv: Option<string>, body: Option<Json>,
                      now: string)
    returns (response: WebhookResponse, scheduled: Option<Order>)
    requires store.Valid()
    modifies store
    ensures store.Valid() && store.ids == old(store.ids)
    ensures WebhookGate(receivedToken, tokenEnv, body).Some? ==>
      response == WebhookGate(receivedToken, tokenEnv, body).value && store.orders == old(store.orders) && scheduled == None
    ensures WebhookGate(receivedToken, tokenEnv, body).None? ==>
      var t := WebhookTarget(body.value, old(store.ids), old(store.orders));
      && store.orders == (if t.Ok? then MarkPaid(old(store.orders), t.value, now) else old(store.orders))
      && response == (if t.Ok? then Received else ServerError(t.error))
    ensures scheduled == None
  {
    var gate := WebhookGate(receivedToken, tokenEnv, body);
    if gate.Some? {
      return gate.value, None;
    }
    response, scheduled := HandleEvent(store, body.value, now);
  }

  /** `webhook_asaas` once the token and the body are accepted, as written. */
  method HandleEvent(store: OrderStore, body: Json, now: string)
    returns (response: WebhookResponse, scheduled: Option<Order>)
    requires store.Valid()
    modifies store
    ensures store.Valid() && store.ids == old(store.ids)
    ensures var t := WebhookTarget(body, old(store.ids), old(store.orders));
      && store.orders == (if t.Ok? then MarkPaid(old(store.orders), t.value, now) else old(store.orders))
      && response == (if t.Ok? then Received else ServerError(t.error))
    ensures scheduled == None
  {
    var orderId := ProcessarWebhook(store, body, now);
    if orderId.Err? {
      return ServerError(orderId.error), None;
    }
    scheduled := None;
    if orderId.value {
      var order := GetOrderByKey(store.orders, KBool(orderId.value));
      match order {
        case None =>
        case Some(o) => scheduled := Some(o);
      }
    }
    return Received, scheduled;
  }

  /** `webhook_asaas` with `processar_webhook` returning the order id it marked. */
  method WebhookAsaasFixed(store: OrderStore, receivedToken: Option<string>, tokenEnv: Option<string>, body: Option<Json>,
                           now: string)
    returns (response: WebhookResponse, scheduled: Option<Order>)
    requires store.Valid()
    modifies store
    ensures store.Valid() && store.ids == old(store.ids)
    ensures WebhookGate(receivedToken, tokenEnv, body).Some? ==>
      response == WebhookGate(receivedToken, tokenEnv, body).value && store.orders == old(store.orders) && scheduled == None
    ensures WebhookGate(receivedToken, tokenEnv, body).None? ==>
      var t := WebhookTarget(body.value, old(store.ids), old(store.orders));
      && store.orders == (if t.Ok? then MarkPaid(old(store.orders), t.value, now) else old(store.orders))
      && response == (if t.Ok? then Received else ServerError(t.error))
      && scheduled == (if t.Ok? then ScheduledFixed(t, store.orders) else None)
  {
    var gate := WebhookGate(receivedToken, tokenEnv, body);
    if gate.Some? {
      return gate.value, None;
    }
    response, scheduled := HandleEventFixed(store, body.value, now);
  }

  /** `webhook_asaas` once the token and the body are accepted, with the id handed back. */
  method HandleEventFixed(store: OrderStore, body: Json, now: string)
    returns (response: WebhookResponse, scheduled: Option<Order>)
    requires store.Valid()
    modifies store
    ensures store.Valid() && store.ids == old(store.ids)
    ensures var t := WebhookTarget(body, old(store.ids), old(store.orders));
      && store.orders == (if t.Ok? then MarkPaid(old(store.orders), t.value, now) else old(store.orders))
      && response == (if t.Ok? then Received else ServerError(t.error))
      && scheduled == (if t.Ok? then ScheduledFixed(t, store.orders) else None)
  {
    ghost var t := WebhookTarget(body, store.ids, store.orders);
    var orderId := ProcessarWebhookFixed(store, body, now);
    assert orderId == t;
    if orderId.Err? {
      return ServerError(orderId.error), None;
    }
    scheduled := None;
    if orderId.value.Some? {
      var order := store.GetOrder(orderId.value.value);
      assert order == GetOrderByKey(store.orders, KStr(orderId.value.value));
      if order.Some? {
        scheduled := Some(order.value.(orderId := orderId.value.value));
      }
    }
    assert scheduled == ScheduledFixed(t, store.orders);
    return Received, scheduled;
  }

  // ---------------------------------------------------------------------------
  // GET /order/{order_id}

  /** The stored record, or 404 when the id is unknown. */
  function GetOrderRoute(orders: map<string, Order>, orderId: string): (r: Result<Order, nat>)
    ensures r.Ok? <==> orderId in orders
    ensures r.Ok? ==> r.value == orders[orderId]
    ensures r.Err? ==> r.error == 404
  {
    match GetOrderByKey(orders, KStr(orderId))
    case None => Err(404)
    case Some(order) => Ok(order)
  }
}
