/**
 * The backend's submission and receipt protocol: POST /submit validates the five body
 * fields, authenticates the signer, derives the host token, stages the patient data in a
 * temporary file, runs the proof engine and, only when the engine exits with code 0,
 * upserts a mapping record; GET /receipt/:host_token serves the receipt file recorded
 * for a token.
 *
 * The cryptographic primitives, toLowerCase, the clock, the file system's failures and the
 * engine's behaviour are inputs: a Config fixed at start-up and an Env per request.
 */
module Server {
  import opened Wrappers
  import opened JsValues

  /** Process-wide settings and the library primitives the handlers call. */
  datatype Config = Config(
    secret: string,                                   // SERVER_SECRET
    hmac: (string, string) -> string,                 // HMAC-SHA256 hex digest of (key, message)
    recover: (Json, Json) -> Result<string, string>,  // verifyMessage(message, signature), or the message it throws
    lower: string -> string,                          // String.prototype.toLowerCase
    cwd: string,                                      // the directory path.resolve resolves against
    engine: string)                                   // ZVAN_HOST_CLI

  const DefaultSecret := "CHANGE_THIS_SECRET"

  /** `process.env.SERVER_SECRET || 'CHANGE_THIS_SECRET'`: an unset or empty variable falls back. */
  function ConfiguredSecret(env: Option<string>): (secret: string)
    ensures secret != ""
    ensures env.Some? && env.value != "" ==> secret == env.value
    ensures env.None? || env.value == "" ==> secret == DefaultSecret
  {
    if env.Some? && env.value != "" then env.value else DefaultSecret
  }

  /** The body of POST /submit; a field the client did not send is None. */
  datatype Request = Request(
    address: Option<Json>,
    signature: Option<Json>,
    message: Option<Json>,
    patientData: Option<Json>,
    nonce: Option<Json>)

  /** A row of the `mappings` table; the table's primary key is the host token. */
  datatype Record = Record(address: string, nonce: Json, createdAt: nat, receiptPath: string)

  /** What a file the backend knows about holds. */
  datatype FileData = StagedPatient(data: Json) | EngineReceipt

  /** One call of spawn: the program and its argument vector. */
  datatype Launch = Launch(program: string, args: seq<string>)

  /**
   * How the spawned engine ended: the `close` event with its exit code (None when the
   * process was killed by a signal, where Node passes null), saying whether a receipt file
   * was left at the output path; the `error` event; or spawn throwing synchronously.
   */
  datatype EngineOutcome =
    | Closed(code: Option<int>, wroteReceipt: bool)
    | LaunchFailed(message: string)
    | SpawnThrew(message: string)

  /** The per-request facts outside the server's control. */
  datatype Env = Env(
    stagedAt: nat,               // Date.now() when the temporary file is named
    receiptAt: nat,              // Date.now() when the receipt path is named
    committedAt: nat,            // Date.now() when the row is written
    writeError: Option<string>,  // writeFileSync throws with this message
    mkdirError: Option<string>,  // mkdirSync throws with this message
    unlinkFails: bool,           // unlinkSync of the staged input throws; the handler swallows it
    engine: EngineOutcome)

  datatype Body =
    | MissingFields
    | InvalidSignature
    | Error(message: string)
    | HostFailed(code: Option<int>)
    | Accepted(hostToken: string, receiptPath: string)
    | NotFound
    | File(path: string)

  datatype Response = Response(status: nat, body: Body)

  /** The abstract world: the mappings table, the files, the directories and every spawn call. */
  datatype World = World(
    store: map<string, Record>,
    files: map<string, FileData>,
    dirs: set<string>,
    launches: seq<Launch>)

  /** What a request handler leaves behind. */
  datatype Handled = Handled(world: World, response: Response)

  /** V8's message when `address.toLowerCase` is called on a non-string. */
  const NotAFunction := "address.toLowerCase is not a function"

  // ---------------------------------------------------------------------------------
  // Paths chosen by the server

  function StagingPath(cwd: string, stamp: nat): string
  {
    cwd + "/tmp_patient_" + NatText(stamp) + ".json"
  }

  function ReceiptsDir(cwd: string): string
  {
    cwd + "/receipts"
  }

  function ReceiptPath(cwd: string, stamp: nat): string
  {
    ReceiptsDir(cwd) + "/receipt_" + NatText(stamp) + ".bin"
  }

  /** A path of the shape the server gives receipts: inside the receipts directory, named by a clock reading. */
  ghost predicate IsReceiptPath(cwd: string, p: string)
  {
    exists stamp: nat :: p == ReceiptPath(cwd, stamp)
  }

  /** The staged input and the receipt never share a path, whatever the two clock readings. */
  lemma StagingIsNotReceipt(cwd: string, s: nat, r: nat)
    ensures StagingPath(cwd, s) != ReceiptPath(cwd, r)
  {
    var k := |cwd| + 1;
    assert StagingPath(cwd, s)[k] == 't';
    assert ReceiptPath(cwd, r)[k] == 'r';
  }

  /** A receipt path is the receipts directory, "/receipt_", decimal digits and ".bin": no client text in it. */
  lemma ReceiptPathShape(cwd: string, stamp: nat)
    ensures var p := ReceiptPath(cwd, stamp);
      && |p| > |cwd| + 22
      && p[..|cwd|] == cwd
      && p[|cwd|..|cwd| + 18] == "/receipts/receipt_"
      && AllDigits(p[|cwd| + 18..|p| - 4])
      && p[|p| - 4..] == ".bin"
  {
  }

  // ---------------------------------------------------------------------------------
  // The host token

  /** The HMAC message: the address as supplied, "|", and the nonce's string form. */
  function TokenMessage(address: string, nonceText: string): string
  {
    address + "|" + nonceText
  }

  /** `makeHostToken`: the interpolation of the nonce may throw before HMAC is reached. */
  function MakeHostToken(cfg: Config, address: string, nonce: Json): (r: Result<string, string>)
    ensures r.Failure? <==> TemplateText(nonce).Failure?
    ensures r.Failure? ==> r.error == NotPrimitive
  {
    match TemplateText(nonce)
    case Failure(e) => Failure(e)
    case Success(text) => Success(cfg.hmac(cfg.secret, TokenMessage(address, text)))
  }

  /** The token depends on the address and the nonce's string form only, so repeating a pair repeats the token. */
  lemma TokenIsDeterministic(cfg: Config, a1: string, n1: Json, a2: string, n2: Json)
    requires a1 == a2 && TemplateText(n1) == TemplateText(n2)
    ensures MakeHostToken(cfg, a1, n1) == MakeHostToken(cfg, a2, n2)
  {
  }

  /** The nonce is used through its string form: the string "1" and the number 1 give one token. */
  lemma NonceTypeIsForgotten(cfg: Config, address: string)
    ensures MakeHostToken(cfg, address, JString("1")) == MakeHostToken(cfg, address, JNumber(1))
  {
  }

  /** An object nonce with its own "toString" key gives no token: the interpolation throws. */
  lemma OwnToStringNonceHasNoToken(cfg: Config, address: string)
    ensures MakeHostToken(cfg, address, JObject([("toString", JNumber(1))])) == Failure(NotPrimitive)
  {
    OwnToStringThrows();
  }

  /** The address is not case-folded: two spellings of one account hash different messages. */
  lemma TokenKeepsAddressCase()
    ensures TokenMessage("0xABC", "n1") != TokenMessage("0xabc", "n1")
  {
    assert TokenMessage("0xABC", "n1")[2] == 'A';
  }

  /** An address without "|" is recovered from the HMAC message, and so is the nonce's text. */
  lemma {:induction false} TokenMessageInjective(a1: string, t1: string, a2: string, t2: string)
    requires '|' !in a1 && '|' !in a2
    requires TokenMessage(a1, t1) == TokenMessage(a2, t2)
    ensures a1 == a2 && t1 == t2
  {
    var m := TokenMessage(a1, t1);
    // the first "|" of the message closes the address, on either side
    assert m[|a1|] == '|' && m[|a2|] == '|';
    assert forall i :: 0 <= i < |a1| ==> m[i] == a1[i] != '|';
    assert forall i :: 0 <= i < |a2| ==> m[i] == a2[i] != '|';
    assert |a1| == |a2|;
    assert a1 == m[..|a1|] == a2;
    assert t1 == m[|a1| + 1..] == t2;
  }

  /** With a "|" inside the address, different (address, nonce) pairs share a message. */
  lemma TokenMessageAmbiguousWithBar()
    ensures TokenMessage("a|b", "c") == TokenMessage("a", "b|c")
  {
  }

  // ---------------------------------------------------------------------------------
  // POST /submit

  /** Every field passes the truthiness test. */
  predicate Complete(req: Request)
  {
    Present(req.address) && Present(req.signature) && Present(req.message)
    && Present(req.patientData) && Present(req.nonce)
  }

  /** Signature recovery, run on a complete request. */
  function Recovered(cfg: Config, req: Request): Result<string, string>
    requires Complete(req)
  {
    cfg.recover(req.message.value, req.signature.value)
  }

  /** The request gets past validation and authentication: the recovered signer, lower-cased, equals the address, lower-cased. */
  predicate Authentic(cfg: Config, req: Request)
  {
    && Complete(req)
    && Recovered(cfg, req).Success?
    && req.address.value.JString?
    && cfg.lower(Recovered(cfg, req).value) == cfg.lower(req.address.value.s)
  }

  /** The request also gets past `makeHostToken`: the nonce converts to a string. */
  predicate Derived(cfg: Config, req: Request)
  {
    Authentic(cfg, req) && TemplateText(req.nonce.value).Success?
  }

  function TokenFor(cfg: Config, req: Request): string
    requires Complete(req) && req.address.value.JString? && TemplateText(req.nonce.value).Success?
  {
    MakeHostToken(cfg, req.address.value.s, req.nonce.value).value
  }

  /** The spawn call an authenticated request makes: the engine, the staged input, the token, the output. */
  function LaunchFor(cfg: Config, req: Request, env: Env): Launch
    requires Complete(req) && req.address.value.JString? && TemplateText(req.nonce.value).Success?
  {
    Launch(cfg.engine, [StagingPath(cfg.cwd, env.stagedAt), TokenFor(cfg, req), ReceiptPath(cfg.cwd, env.receiptAt)])
  }

  /** The request was authenticated and the file system let the handler reach spawn. */
  predicate Spawned(cfg: Config, req: Request, env: Env)
  {
    Derived(cfg, req) && env.writeError.None? && env.mkdirError.None?
  }

  /** The engine ran and exited with code 0: the one case that writes the store. */
  predicate Succeeded(cfg: Config, req: Request, env: Env)
  {
    Spawned(cfg, req, env) && env.engine.Closed? && env.engine.code == Some(0)
  }

  /** The record a successful submission upserts. */
  function RecordFor(cfg: Config, req: Request, env: Env): Record
    requires Complete(req) && req.address.value.JString?
  {
    Record(req.address.value.s, req.nonce.value, env.committedAt, ReceiptPath(cfg.cwd, env.receiptAt))
  }

  /** `try { fs.unlinkSync(p) } catch(e) {}`: the file goes, unless the delete fails and is swallowed. */
  function Unlink(files: map<string, FileData>, p: string, fails: bool): map<string, FileData>
  {
    if fails then files else files - {p}
  }

  /** The steps after the token is derived: stage the data, create the receipts directory, spawn, await the engine, commit. */
  function Dispatch(cfg: Config, w: World, address: string, nonce: Json, token: string, data: Json, env: Env): Handled
  {
    var tmp := StagingPath(cfg.cwd, env.stagedAt);
    var receipt := ReceiptPath(cfg.cwd, env.receiptAt);
    if env.writeError.Some? then
      Handled(w, Response(500, Error(env.writeError.value)))
    else
      var staged := w.(files := w.files[tmp := StagedPatient(data)]);
      if env.mkdirError.Some? then
        // the catch block answers; the staged file stays on disk
        Handled(staged, Response(500, Error(env.mkdirError.value)))
      else
        var spawned := staged.(dirs := staged.dirs + {ReceiptsDir(cfg.cwd)},
                               launches := staged.launches + [Launch(cfg.engine, [tmp, token, receipt])]);
        match env.engine
        case SpawnThrew(e) =>
          Handled(spawned, Response(500, Error(e)))
        case LaunchFailed(e) =>
          Handled(spawned.(files := Unlink(spawned.files, tmp, env.unlinkFails)), Response(500, Error(e)))
        case Closed(code, wrote) =>
          var written := if wrote then spawned.files[receipt := EngineReceipt] else spawned.files;
          var cleaned := spawned.(files := Unlink(written, tmp, env.unlinkFails));
          if code != Some(0) then
            Handled(cleaned, Response(500, HostFailed(code)))
          else
            var row := Record(address, nonce, env.committedAt, receipt);
            Handled(cleaned.(store := cleaned.store[token := row]), Response(200, Accepted(token, receipt)))
  }

  /** The POST /submit handler over the abstract world. */
  function HandleSubmit(cfg: Config, w: World, req: Request, env: Env): (out: Handled)
    // validation comes first and touches nothing
    ensures !Complete(req) ==> out == Handled(w, Response(400, MissingFields))
    // a throwing verifyMessage lands in the catch block before any effect
    ensures Complete(req) && Recovered(cfg, req).Failure? ==>
              out == Handled(w, Response(500, Error(Recovered(cfg, req).error)))
    // a signer that differs from the address (ignoring case) is refused before any effect
    ensures Complete(req) && Recovered(cfg, req).Success? && req.address.value.JString?
            && cfg.lower(Recovered(cfg, req).value) != cfg.lower(req.address.value.s) ==>
              out == Handled(w, Response(400, InvalidSignature))
    // a nonce whose interpolation throws lands in the catch block before any effect
    ensures Authentic(cfg, req) && TemplateText(req.nonce.value).Failure? ==>
              out == Handled(w, Response(500, Error(NotPrimitive)))
    // nothing in the world changes unless the request was authenticated and its token derived
    ensures out.world != w ==> Derived(cfg, req)
    // the store changes only on exit code 0, and then by an upsert of this request's row
    ensures out.world.store == (if Succeeded(cfg, req, env)
                                then w.store[TokenFor(cfg, req) := RecordFor(cfg, req, env)]
                                else w.store)
    // the engine is launched exactly once, with the three positional arguments, iff the handler reaches spawn
    ensures out.world.launches == (if Spawned(cfg, req, env) then w.launches + [LaunchFor(cfg, req, env)]
                                   else w.launches)
    ensures out.response.status == 200 <==> Succeeded(cfg, req, env)
    ensures Succeeded(cfg, req, env) ==>
              out.response.body == Accepted(TokenFor(cfg, req), ReceiptPath(cfg.cwd, env.receiptAt))
    // no file other than the staged input and the receipt changes, and only the receipts directory may appear
    ensures forall f :: f != StagingPath(cfg.cwd, env.stagedAt) && f != ReceiptPath(cfg.cwd, env.receiptAt) ==>
              (f in out.world.files <==> f in w.files) && (f in w.files ==> out.world.files[f] == w.files[f])
    ensures w.dirs <= out.world.dirs <= w.dirs + {ReceiptsDir(cfg.cwd)}
  {
    if !Complete(req) then
      Handled(w, Response(400, MissingFields))
    else
      match cfg.recover(req.message.value, req.signature.value)
      case Failure(e) => Handled(w, Response(500, Error(e)))
      case Success(recovered) =>
        var address := req.address.value;
        if !address.JString? then
          Handled(w, Response(500, Error(NotAFunction)))
        else if cfg.lower(recovered) != cfg.lower(address.s) then
          Handled(w, Response(400, InvalidSignature))
        else
          match MakeHostToken(cfg, address.s, req.nonce.value)
          case Failure(e) => Handled(w, Response(500, Error(e)))
          case Success(token) => Dispatch(cfg, w, address.s, req.nonce.value, token, req.patientData.value, env)
  }

  /** A truthy address that is not a string makes `address.toLowerCase()` throw: a 500 with no effect. */
  lemma NonStringAddressIsInternalError(cfg: Config, w: World, req: Request, env: Env)
    requires Complete(req) && Recovered(cfg, req).Success? && !req.address.value.JString?
    ensures HandleSubmit(cfg, w, req, env) == Handled(w, Response(500, Error(NotAFunction)))
  {
  }

  /** Before spawn, a failing writeFileSync leaves the world as it was; a failing mkdirSync leaves the staged file behind. */
  lemma StagingFailures(cfg: Config, w: World, req: Request, env: Env)
    requires Derived(cfg, req)
    ensures var out := HandleSubmit(cfg, w, req, env);
      var tmp := StagingPath(cfg.cwd, env.stagedAt);
      && (env.writeError.Some? ==> out == Handled(w, Response(500, Error(env.writeError.value))))
      && (env.writeError.None? && env.mkdirError.Some? ==>
            && out.response == Response(500, Error(env.mkdirError.value))
            && out.world == w.(files := w.files[tmp := StagedPatient(req.patientData.value)]))
  {
  }

  /**
   * Once the engine has run or failed to start, the staged input is gone unless its delete failed;
   * a synchronous spawn throw or a failed delete leaves it in place.
   */
  lemma StagedInputCleanup(cfg: Config, w: World, req: Request, env: Env)
    requires Spawned(cfg, req, env)
    ensures var out := HandleSubmit(cfg, w, req, env);
      var tmp := StagingPath(cfg.cwd, env.stagedAt);
      && (!env.engine.SpawnThrew? && !env.unlinkFails ==> tmp !in out.world.files)
      && (env.engine.SpawnThrew? || env.unlinkFails ==>
            tmp in out.world.files && out.world.files[tmp] == StagedPatient(req.patientData.value))
      && ReceiptsDir(cfg.cwd) in out.world.dirs
  {
    StagingIsNotReceipt(cfg.cwd, env.stagedAt, env.receiptAt);
  }

  /**
   * A failed delete is swallowed: the answer, the store, the launches, the directories and every
   * other file are as if it had worked; before the engine has run it makes no difference at all.
   */
  lemma UnlinkFailureIsSwallowed(cfg: Config, w: World, req: Request, env: Env)
    ensures var out1 := HandleSubmit(cfg, w, req, env.(unlinkFails := false));
      var out2 := HandleSubmit(cfg, w, req, env.(unlinkFails := true));
      var tmp := StagingPath(cfg.cwd, env.stagedAt);
      && out1.response == out2.response
      && out1.world.(files := map[]) == out2.world.(files := map[])
      && (forall f :: f != tmp ==> (f in out1.world.files <==> f in out2.world.files))
      && (forall f :: f != tmp && f in out1.world.files ==> out1.world.files[f] == out2.world.files[f])
      && (!Spawned(cfg, req, env) || env.engine.SpawnThrew? ==> out1 == out2)
  {
  }

  /** The engine's failures: a non-zero or null exit code and a launch error each give a 500 and leave the store alone. */
  lemma EngineFailureResponses(cfg: Config, w: World, req: Request, env: Env)
    requires Spawned(cfg, req, env)
    ensures var out := HandleSubmit(cfg, w, req, env);
      && (env.engine.Closed? && env.engine.code != Some(0) ==>
            out.response == Response(500, HostFailed(env.engine.code)))
      && (env.engine.LaunchFailed? ==> out.response == Response(500, Error(env.engine.message)))
      && (env.engine.SpawnThrew? ==> out.response == Response(500, Error(env.engine.message)))
      && (!Succeeded(cfg, req, env) ==> out.world.store == w.store)
  {
  }

  /** A receipt the engine wrote stays on disk whatever its exit code. */
  lemma EngineOutputIsKept(cfg: Config, w: World, req: Request, env: Env)
    requires Spawned(cfg, req, env) && env.engine.Closed? && env.engine.wroteReceipt
    ensures var receipt := ReceiptPath(cfg.cwd, env.receiptAt);
      var out := HandleSubmit(cfg, w, req, env);
      receipt in out.world.files && out.world.files[receipt] == EngineReceipt
  {
    StagingIsNotReceipt(cfg.cwd, env.stagedAt, env.receiptAt);
  }

  /** The upsert leaves every other token's row as it was. */
  lemma UpsertIsolatesOtherTokens(cfg: Config, w: World, req: Request, env: Env, t: string)
    requires Complete(req) && req.address.value.JString? && TemplateText(req.nonce.value).Success?
    requires t != TokenFor(cfg, req)
    ensures var store := HandleSubmit(cfg, w, req, env).world.store;
      (t in store <==> t in w.store) && (t in store ==> store[t] == w.store[t])
  {
  }

  // ---------------------------------------------------------------------------------
  // GET /receipt/:host_token

  /** The lookup: 404 for an unknown token, otherwise the file at the path stored for it. */
  function Retrieve(store: map<string, Record>, token: string): (r: Response)
    ensures r.status == 404 <==> token !in store
    ensures r.status == 404 ==> r.body == NotFound
    ensures r.status != 404 ==> r == Response(200, File(store[token].receiptPath))
  {
    if token in store then Response(200, File(store[token].receiptPath)) else Response(404, NotFound)
  }

  // ---------------------------------------------------------------------------------
  // The invariant every reachable world keeps

  /** The call ran the engine with three arguments, the second the token t and the third the output path p. */
  predicate LaunchedWith(cfg: Config, l: Launch, t: string, p: string)
  {
    l.program == cfg.engine && |l.args| == 3 && l.args[1] == t && l.args[2] == p
  }

  /** Some spawn call handed path p to the engine as the output for token t. */
  ghost predicate Issued(cfg: Config, launches: seq<Launch>, t: string, p: string)
  {
    exists i :: 0 <= i < |launches| && LaunchedWith(cfg, launches[i], t, p)
  }

  /**
   * Every row is keyed by the token of its own address and nonce, and its receipt path is a
   * server-named receipt path that was handed to the engine for that very token.
   */
  ghost predicate Consistent(cfg: Config, w: World)
  {
    forall t :: t in w.store ==>
      && MakeHostToken(cfg, w.store[t].address, w.store[t].nonce) == Success(t)
      && IsReceiptPath(cfg.cwd, w.store[t].receiptPath)
      && Issued(cfg, w.launches, t, w.store[t].receiptPath)
  }

  lemma IssuedGrows(cfg: Config, ls: seq<Launch>, extra: seq<Launch>, t: string, p: string)
    requires Issued(cfg, ls, t, p)
    ensures Issued(cfg, ls + extra, t, p)
  {
    var i :| 0 <= i < |ls| && LaunchedWith(cfg, ls[i], t, p);
    assert (ls + extra)[i] == ls[i];
  }

  /** Every submission, whatever its outcome, keeps the world consistent. */
  lemma {:induction false} SubmitKeepsConsistent(cfg: Config, w: World, req: Request, env: Env)
    requires Consistent(cfg, w)
    ensures Consistent(cfg, HandleSubmit(cfg, w, req, env).world)
  {
    var out := HandleSubmit(cfg, w, req, env).world;
    if Spawned(cfg, req, env) {
      var l := LaunchFor(cfg, req, env);
      assert out.launches == w.launches + [l];
      forall t | t in w.store
        ensures Issued(cfg, out.launches, t, w.store[t].receiptPath)
      {
        IssuedGrows(cfg, w.launches, [l], t, w.store[t].receiptPath);
      }
      if Succeeded(cfg, req, env) {
        var token := TokenFor(cfg, req);
        var row := RecordFor(cfg, req, env);
        assert LaunchedWith(cfg, out.launches[|w.launches|], token, row.receiptPath);
        assert Issued(cfg, out.launches, token, row.receiptPath);
        assert IsReceiptPath(cfg.cwd, row.receiptPath) by {
          assert row.receiptPath == ReceiptPath(cfg.cwd, env.receiptAt);
        }
      }
    }
  }

  /** A consistent world only ever serves a receipt path the server named and handed to the engine for that token. */
  lemma RetrievalServesIssuedPaths(cfg: Config, w: World, token: string)
    requires Consistent(cfg, w)
    ensures var r := Retrieve(w.store, token);
      r.body.File? ==> IsReceiptPath(cfg.cwd, r.body.path) && Issued(cfg, w.launches, token, r.body.path)
  {
  }

  // ---------------------------------------------------------------------------------
  // Runs of many requests, one after another

  datatype Call = SubmitCall(req: Request, env: Env)

  /** The world after serving the submissions in order. */
  function Run(cfg: Config, w: World, calls: seq<Call>): World
    decreases |calls|
  {
    if calls == [] then w
    else Run(cfg, HandleSubmit(cfg, w, calls[0].req, calls[0].env).world, calls[1..])
  }

  /** Consistency holds after any sequence of submissions. */
  lemma {:induction false} RunKeepsConsistent(cfg: Config, w: World, calls: seq<Call>)
    requires Consistent(cfg, w)
    ensures Consistent(cfg, Run(cfg, w, calls))
    decreases |calls|
  {
    if calls != [] {
      SubmitKeepsConsistent(cfg, w, calls[0].req, calls[0].env);
      RunKeepsConsistent(cfg, HandleSubmit(cfg, w, calls[0].req, calls[0].env).world, calls[1..]);
    }
  }

  /** No submission deletes a row: every token that was retrievable stays retrievable. */
  lemma {:induction false} RunNeverForgets(cfg: Config, w: World, calls: seq<Call>)
    ensures w.store.Keys <= Run(cfg, w, calls).store.Keys
    decreases |calls|
  {
    if calls != [] {
      var next := HandleSubmit(cfg, w, calls[0].req, calls[0].env).world;
      RunNeverForgets(cfg, next, calls[1..]);
    }
  }

  /** A failed submission changes no answer of GET /receipt, for its own token or any other. */
  lemma FailureChangesNoReceipt(cfg: Config, w: World, req: Request, env: Env, token: string)
    requires !Succeeded(cfg, req, env)
    ensures Retrieve(HandleSubmit(cfg, w, req, env).world.store, token) == Retrieve(w.store, token)
  {
  }

  /** Submitting the same address and nonce twice, both successfully, replaces the row: one key, the later record. */
  lemma ResubmissionReplaces(cfg: Config, w: World, req1: Request, env1: Env, req2: Request, env2: Env)
    requires Succeeded(cfg, req1, env1) && Succeeded(cfg, req2, env2)
    requires req2.address == req1.address && req2.nonce == req1.nonce
    ensures var mid := HandleSubmit(cfg, w, req1, env1).world;
      var last := HandleSubmit(cfg, mid, req2, env2).world;
      && last.store.Keys == mid.store.Keys == w.store.Keys + {TokenFor(cfg, req1)}
      && last.store[TokenFor(cfg, req1)] == RecordFor(cfg, req2, env2)
  {
  }

  // ---------------------------------------------------------------------------------
  // The backend as an object whose fields the handlers update in place

  class Backend {
    const cfg: Config
    var store: map<string, Record>
    var files: map<string, FileData>
    var dirs: set<string>
    var launches: seq<Launch>

    function State(): World
      reads this
    {
      World(store, files, dirs, launches)
    }

    ghost predicate Valid()
      reads this
    {
      Consistent(cfg, State())
    }

    /**
     * Start-up on a fresh database: the HMAC key comes from the SERVER_SECRET variable (or its
     * fallback), the table is created empty, and the disk holds what it holds.
     */
    constructor (cfg: Config, secretVar: Option<string>, files: map<string, FileData>, dirs: set<string>)
      ensures Valid()
      ensures this.cfg == cfg.(secret := ConfiguredSecret(secretVar)) && this.cfg.secret != ""
      ensures State() == World(map[], files, dirs, [])
    {
      this.cfg := cfg.(secret := ConfiguredSecret(secretVar));
      this.store := map[];
      this.files := files;
      this.dirs := dirs;
      this.launches := [];
    }

    /** POST /submit, step by step. */
    method Submit(req: Request, env: Env) returns (resp: Response)
      requires Valid()
      modifies this
      ensures Valid()
      ensures Handled(State(), resp) == HandleSubmit(cfg, old(State()), req, env)
    {
      ghost var w := State();
      SubmitKeepsConsistent(cfg, w, req, env);
      if !(Present(req.address) && Present(req.signature) && Present(req.message)
           && Present(req.patientData) && Present(req.nonce)) {
        return Response(400, MissingFields);
      }
      var recovered := cfg.recover(req.message.value, req.signature.value);
      if recovered.Failure? {
        return Response(500, Error(recovered.error));
      }
      var address := req.address.value;
      if !address.JString? {
        return Response(500, Error(NotAFunction));
      }
      if cfg.lower(recovered.value) != cfg.lower(address.s) {
        return Response(400, InvalidSignature);
      }
      var nonce := req.nonce.value;
      var derived := MakeHostToken(cfg, address.s, nonce);
      if derived.Failure? {
        return Response(500, Error(derived.error));
      }
      var token := derived.value;

      var tmp := StagingPath(cfg.cwd, env.stagedAt);
      if env.writeError.Some? {
        return Response(500, Error(env.writeError.value));
      }
      files := files[tmp := StagedPatient(req.patientData.value)];

      var receipt := ReceiptPath(cfg.cwd, env.receiptAt);
      if env.mkdirError.Some? {
        return Response(500, Error(env.mkdirError.value));
      }
      dirs := dirs + {ReceiptsDir(cfg.cwd)};

      launches := launches + [Launch(cfg.engine, [tmp, token, receipt])];
      match env.engine {
        case SpawnThrew(e) =>
          return Response(500, Error(e));
        case LaunchFailed(e) =>
          if !env.unlinkFails {
            files := files - {tmp};
          }
          return Response(500, Error(e));
        case Closed(code, wrote) =>
          if wrote {
            files := files[receipt := EngineReceipt];
          }
          if !env.unlinkFails {
            files := files - {tmp};
          }
          if code != Some(0) {
            return Response(500, HostFailed(code));
          }
          store := store[token := Record(address.s, nonce, env.committedAt, receipt)];
          return Response(200, Accepted(token, receipt));
      }
    }

    /** GET /receipt/:host_token: a read-only lookup. */
    method GetReceipt(token: string) returns (resp: Response)
      requires Valid()
      ensures resp == Retrieve(store, token)
      ensures resp.body.File? ==> IsReceiptPath(cfg.cwd, resp.body.path) && Issued(cfg, launches, token, resp.body.path)
    {
      if token in store {
        resp := Response(200, File(store[token].receiptPath));
      } else {
        resp := Response(404, NotFound);
      }
    }
  }
}
