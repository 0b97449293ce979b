/**
 * The first-run wizard behind /api/setup. Each handler reads and writes the
 * settings table (`password_hash`, `stream_key`, `setup_step`,
 * `setup_finished`) and answers with a status and a JSON body; no handler
 * touches the targets table.
 */
module Setup {
  import opened Text
  import opened Db

  /** The JSON body of a reply. */
  datatype Body =
    | StatusBody(setupComplete: bool, currentStep: JsNum)
    | Success
    | SuccessKey(streamKey: Option<string>)   // { success: true, streamKey }
    | KeyBody(streamKey: Option<string>)      // { streamKey }
    | Error(message: string)
    | InternalError                           // the catch-all 500

  datatype Reply = Reply(status: int, body: Body)

  const MinPasswordLength := 6
  const ShortPassword := "Password must be at least 6 characters"
  const NoPassword := "No password set"
  const InvalidPassword := "Invalid password"
  const NotComplete := "Setup not complete (missing password or stream key)"
  const KeyPrefix := "nxs_"

  /** A fresh key: "nxs_" and the 16 random bytes as 32 lower-case hex digits; distinct bytes give distinct keys. */
  function GeneratedKey(random: seq<byte>): (k: string)
    requires |random| == 16
    ensures |k| == 36 && StartsWith(k, KeyPrefix)
    ensures forall i :: 4 <= i < 36 ==> IsLowerHex(k[i])
  {
    KeyPrefix + Hex(random)
  }

  /** Two different draws of randomBytes never produce the same key. */
  lemma GeneratedKeyInjective(a: seq<byte>, b: seq<byte>)
    requires |a| == 16 && |b| == 16 && a != b
    ensures GeneratedKey(a) != GeneratedKey(b)
  {
    if GeneratedKey(a) == GeneratedKey(b) {
      assert Hex(a) == GeneratedKey(a)[4..];
      assert Hex(b) == GeneratedKey(b)[4..];
      HexInjective(a, b);
    }
  }

  /** GET /status: complete setups report step 5, others the stored step. */
  method Status(store: Store) returns (r: Reply)
    ensures r.status == 200 && r.body.StatusBody?
    ensures r.body.setupComplete <==> store.GetSetting("setup_finished") == Some("1")
    ensures r.body.setupComplete ==> r.body.currentStep == Num(5)
    ensures !r.body.setupComplete ==> r.body.currentStep == store.GetSetupStep()
  {
    var complete := store.IsSetupComplete();
    var currentStep := if complete then Num(5) else store.GetSetupStep();
    r := Reply(200, StatusBody(complete, currentStep));
  }

  /**
   * POST /password with the bcrypt hash of the password as `hashed`: a
   * missing password or one under 6 characters is refused and nothing is
   * stored; otherwise the hash is stored and the wizard moves to step 2.
   */
  method Password(store: Store, password: Option<string>, hashed: string) returns (r: Reply)
    modifies store
    ensures password.None? || |password.value| < MinPasswordLength ==>
              r == Reply(400, Error(ShortPassword)) && store.settings == old(store.settings)
    ensures password.Some? && |password.value| >= MinPasswordLength ==>
              r == Reply(200, Success) &&
              store.GetPasswordHash() == Some(hashed) && store.GetSetupStep() == Num(2) &&
              store.settings == old(store.settings)["password_hash" := hashed]["setup_step" := IntToString(2)]
    ensures store.IsSetupComplete() == old(store.IsSetupComplete()) && store.GetStreamKeyDb() == old(store.GetStreamKeyDb())
    ensures store.rows == old(store.rows) && store.lastId == old(store.lastId) && store.issued == old(store.issued)
  {
    if password.None? || |password.value| < MinPasswordLength {
      return Reply(400, Error(ShortPassword));
    }
    store.SetPasswordHash(hashed);
    store.SetSetupStep(2);
    r := Reply(200, Success);
  }

  /**
   * POST /stream-key with `random` as the 16 bytes randomBytes returned: a
   * stored key is answered unchanged; without one a fresh key is stored and
   * answered. Either way the answer is the key now stored.
   */
  method CreateStreamKey(store: Store, random: seq<byte>) returns (r: Reply)
    requires |random| == 16
    modifies store
    ensures r.status == 200 && r.body == SuccessKey(store.GetStreamKeyDb()) && Present(store.GetStreamKeyDb())
    ensures Present(old(store.GetStreamKeyDb())) ==> store.settings == old(store.settings)
    ensures !Present(old(store.GetStreamKeyDb())) ==>
              store.settings == old(store.settings)["stream_key" := GeneratedKey(random)]
    ensures store.IsSetupComplete() == old(store.IsSetupComplete()) && store.GetSetupStep() == old(store.GetSetupStep())
    ensures store.GetPasswordHash() == old(store.GetPasswordHash())
    ensures store.rows == old(store.rows) && store.lastId == old(store.lastId) && store.issued == old(store.issued)
  {
    var key := store.GetStreamKeyDb();
    if !Present(key) {
      var generated := GeneratedKey(random);
      store.SetStreamKeyDb(generated);
      key := Some(generated);
    }
    r := Reply(200, SuccessKey(key));
  }

  /** Asking for a key twice answers the same key, whatever the second draw. */
  method CreateStreamKeyTwice(store: Store, first: seq<byte>, second: seq<byte>) returns (a: Reply, b: Reply)
    requires |first| == 16 && |second| == 16
    modifies store
    ensures a == b && a.body.SuccessKey? && a.body.streamKey.Some?
    ensures Present(old(store.GetStreamKeyDb())) ==> a.body.streamKey == old(store.GetStreamKeyDb())
    ensures !Present(old(store.GetStreamKeyDb())) ==> a.body.streamKey == Some(GeneratedKey(first))
  {
    a := CreateStreamKey(store, first);
    b := CreateStreamKey(store, second);
  }

  /** POST /obs-verified: the wizard moves to step 3, whatever it was. */
  method ObsVerified(store: Store) returns (r: Reply)
    modifies store
    ensures r == Reply(200, Success) && store.GetSetupStep() == Num(3)
    ensures store.settings == old(store.settings)["setup_step" := IntToString(3)]
    ensures store.IsSetupComplete() == old(store.IsSetupComplete())
    ensures store.GetPasswordHash() == old(store.GetPasswordHash()) && store.GetStreamKeyDb() == old(store.GetStreamKeyDb())
    ensures store.rows == old(store.rows) && store.lastId == old(store.lastId) && store.issued == old(store.issued)
  {
    store.SetSetupStep(3);
    r := Reply(200, Success);
  }

  /** GET /stream-key: the stored key, null when there is none. */
  method GetStreamKey(store: Store) returns (r: Reply)
    ensures r.status == 200 && r.body.KeyBody?
    ensures r.body.streamKey.Some? <==> "stream_key" in store.settings
    ensures r.body.streamKey.Some? ==> r.body.streamKey.value == store.settings["stream_key"]
  {
    r := Reply(200, KeyBody(store.GetStreamKeyDb()));
  }

  /**
   * POST /verify-password, with bcrypt.compare as `matches`: 400 when no
   * hash is stored, 500 when the body has no password (bcrypt rejects it),
   * 401 when it does not match, and the stored key when it does.
   */
  method VerifyPassword(store: Store, password: Option<string>, matches: (string, string) -> bool) returns (r: Reply)
    ensures !Present(store.GetPasswordHash()) ==> r == Reply(400, Error(NoPassword))
    ensures Present(store.GetPasswordHash()) && password.None? ==> r == Reply(500, InternalError)
    ensures r.status == 200 <==>
              Present(store.GetPasswordHash()) && password.Some? && matches(password.value, store.GetPasswordHash().value)
    ensures r.status == 200 ==> r.body == SuccessKey(store.GetStreamKeyDb())
    ensures Present(store.GetPasswordHash()) && password.Some? && !matches(password.value, store.GetPasswordHash().value) ==>
              r == Reply(401, Error(InvalidPassword))
  {
    var hash := store.GetPasswordHash();
    if !Present(hash) {
      return Reply(400, Error(NoPassword));
    }
    if password.None? {
      return Reply(500, InternalError);
    }
    if !matches(password.value, hash.value) {
      return Reply(401, Error(InvalidPassword));
    }
    r := Reply(200, SuccessKey(store.GetStreamKeyDb()));
  }

  /** A password that was set verifies and yields the stored key; the login page keeps that key as its cookie. */
  method SetThenVerify(store: Store, password: string, hashed: string, matches: (string, string) -> bool)
    returns (stored: Reply, verified: Reply)
    requires |password| >= MinPasswordLength && hashed != "" && matches(password, hashed)
    modifies store
    ensures stored == Reply(200, Success)
    ensures verified == Reply(200, SuccessKey(store.GetStreamKeyDb()))
    ensures store.GetStreamKeyDb() == old(store.GetStreamKeyDb())
  {
    stored := Password(store, Some(password), hashed);
    verified := VerifyPassword(store, Some(password), matches);
  }

  /** POST /complete as written: 400 unless `setup_finished` is already "1", otherwise step 5. */
  method Complete(store: Store) returns (r: Reply)
    modifies store
    ensures !old(store.IsSetupComplete()) ==> r == Reply(400, Error(NotComplete)) && store.settings == old(store.settings)
    ensures old(store.IsSetupComplete()) ==>
              r == Reply(200, Success) && store.GetSetupStep() == Num(5) &&
              store.settings == old(store.settings)["setup_step" := IntToString(5)]
    ensures store.rows == old(store.rows) && store.lastId == old(store.lastId) && store.issued == old(store.issued)
  {
    var complete := store.IsSetupComplete();
    if !complete {
      return Reply(400, Error(NotComplete));
    }
    store.SetSetupStep(5);
    r := Reply(200, Success);
  }

  /**
   * The wizard run through from a store that has not finished setup: a valid
   * password, a stream key, the OBS check, then /complete. No handler ever
   * writes `setup_finished`, so /complete answers 400 and /status still
   * reports an unfinished setup at step 3.
   */
  method WizardAsWritten(store: Store, password: string, hashed: string, random: seq<byte>)
    returns (completed: Reply, status: Reply)
    requires !store.IsSetupComplete()
    requires |password| >= MinPasswordLength && |random| == 16
    modifies store
    ensures completed == Reply(400, Error(NotComplete))
    ensures status == Reply(200, StatusBody(false, Num(3)))
  {
    var _ := Password(store, Some(password), hashed);
    var _ := CreateStreamKey(store, random);
    var _ := ObsVerified(store);
    completed := Complete(store);
    status := Status(store);
  }

  /**
   * POST /complete as evidently intended: with a password hash and a
   * stream key stored, setup is marked finished and the step set to 5;
   * otherwise 400 and nothing changes.
   */
  method CompleteFixed(store: Store) returns (r: Reply)
    modifies store
    ensures Present(old(store.GetPasswordHash())) && Present(old(store.GetStreamKeyDb())) ==>
              r == Reply(200, Success) && store.IsSetupComplete() && store.GetSetupStep() == Num(5) &&
              store.settings == old(store.settings)["setup_finished" := "1"]["setup_step" := IntToString(5)]
    ensures !(Present(old(store.GetPasswordHash())) && Present(old(store.GetStreamKeyDb()))) ==>
              r == Reply(400, Error(NotComplete)) && store.settings == old(store.settings)
    ensures store.rows == old(store.rows) && store.lastId == old(store.lastId) && store.issued == old(store.issued)
  {
    if !Present(store.GetPasswordHash()) || !Present(store.GetStreamKeyDb()) {
      return Reply(400, Error(NotComplete));
    }
    store.SetSetupFinished();
    store.SetSetupStep(5);
    r := Reply(200, Success);
  }

  /** With the corrected /complete the same run finishes setup, and /status then reports it at step 5. */
  method WizardFixed(store: Store, password: string, hashed: string, random: seq<byte>)
    returns (completed: Reply, status: Reply)
    requires |password| >= MinPasswordLength && hashed != "" && |random| == 16
    modifies store
    ensures completed == Reply(200, Success)
    ensures status == Reply(200, StatusBody(true, Num(5)))
  {
    var _ := Password(store, Some(password), hashed);
    var _ := CreateStreamKey(store, random);
    var _ := ObsVerified(store);
    completed := CompleteFixed(store);
    status := Status(store);
  }
}
