/**
  Attestations under a pinned trust set, and the additive ML-DSA-65 envelope that proves one of them
  was valid when the envelope was issued.

  Content digests are free constructors. Signatures are an abstract pair of functions for each of the
  two algorithms. What a private key signs its public key verifies; where a lemma says so, nothing else
  verifies either.
 */
module CryptoMigration {
  import opened Prelude

  type Purpose = string

  datatype Status = Active | Retired | Revoked

  datatype PayloadDigest = PayloadDigest(payload: string)

  datatype AttestationBody = AttestationBody(
    keyId: string,
    purpose: Purpose,
    subject: string,
    payload: PayloadDigest,
    issuedAt: nat,
    expiresAt: Option<nat>,
    nonce: string)

  datatype Attestation = Attestation(body: AttestationBody, signature: string)

  datatype AttestationDigest = AttestationDigest(attestation: Attestation)

  /** A source key; its only algorithm is Ed25519. */
  datatype TrustKey = TrustKey(
    keyId: string,
    publicKey: string,
    status: Status,
    notBefore: nat,
    purposes: set<Purpose>,
    retireAt: Option<nat>,
    predecessor: Option<string>)
  {
    predicate Valid() {
      && (retireAt.Some? ==> retireAt.value > notBefore)
      && (status == Retired ==> retireAt.Some?)
      && predecessor != Some(keyId)
      && purposes != {}
    }
  }

  datatype KeyDigest = KeyDigest(key: TrustKey)

  datatype TrustSet = TrustSet(keys: seq<TrustKey>, previous: Option<string>)
  {
    predicate Valid() {
      && keys != []
      && (forall k :: k in keys ==> k.Valid())
      && (forall i, j :: 0 <= i < j < |keys| ==> keys[i].keyId != keys[j].keyId)
      && (forall k :: k in keys && k.predecessor.Some? ==>
            exists p :: p in keys && p.keyId == k.predecessor.value && p.notBefore < k.notBefore)
    }
  }

  datatype TrustSetDigest = TrustSetDigest(trustSet: TrustSet)

  datatype SourceVerification = SourceVerification(
    attestation: AttestationDigest,
    trustSet: TrustSetDigest,
    key: KeyDigest)

  datatype SourceVerificationDigest = SourceVerificationDigest(verification: SourceVerification)

  datatype Error =
    | TrustSetMismatch
    | UnknownKey
    | PurposeNotAllowed
    | KeyRevoked
    | KeyNotActive
    | BeforeActivation
    | AfterRetirement
    | PurposeMismatch
    | SubjectMismatch
    | PayloadMismatch
    | NotYetValid
    | Expired
    | SignatureInvalid
    | KeyContextMismatch
    | ProfileMismatch
    | OtherProfile
    | PredecessorMismatch
    | PredatesSource
    | RuntimeUnsupported
    | PrivateKeyMismatch
    | BlankNonce
    | BindingMismatch

  /** The signature algorithms, with the private keys as the argument they are. */
  datatype Crypto = Crypto(
    edPublic: string -> string,
    edSign: (string, AttestationBody) -> string,
    edVerify: (string, AttestationBody, string) -> bool,
    mlPublic: string -> string,
    mlSign: (string, EnvelopeBody, nat) -> string,
    mlVerify: (string, EnvelopeBody, string) -> bool)

  /** What a private key signs, its public key verifies, whatever randomness signing uses. */
  ghost predicate Correct(crypto: Crypto) {
    && (forall secret, body :: crypto.edVerify(crypto.edPublic(secret), body, crypto.edSign(secret, body)))
    && (forall secret, body, coins :: crypto.mlVerify(crypto.mlPublic(secret), body, crypto.mlSign(secret, body, coins)))
  }

  // ---------------------------------------------------------------- attestations

  /** The first key with the identifier. */
  function FindKey(keys: seq<TrustKey>, keyId: string): Option<TrustKey> {
    if keys == [] then None
    else if keys[0].keyId == keyId then Some(keys[0])
    else FindKey(keys[1..], keyId)
  }

  /** The lifecycle error of a source key for an instant, as signing and verifying report it. */
  function OutsideLifecycle(notBefore: nat, retireAt: Option<nat>, at: nat): Option<Error> {
    if at < notBefore then Some(BeforeActivation)
    else if retireAt.Some? && at >= retireAt.value then Some(AfterRetirement)
    else None
  }

  function VerifySource(crypto: Crypto, trustSet: TrustSet, pinned: TrustSetDigest, attestation: Attestation,
                        purpose: Purpose, subject: string, payload: string, now: nat): Result<SourceVerification, Error>
  {
    if TrustSetDigest(trustSet) != pinned then Err(TrustSetMismatch)
    else
      var found := FindKey(trustSet.keys, attestation.body.keyId);
      if found.None? then Err(UnknownKey)
      else
        var key := found.value;
        if purpose !in key.purposes then Err(PurposeNotAllowed)
        else if key.status == Revoked then Err(KeyRevoked)
        else if OutsideLifecycle(key.notBefore, key.retireAt, attestation.body.issuedAt).Some?
        then Err(OutsideLifecycle(key.notBefore, key.retireAt, attestation.body.issuedAt).value)
        else if attestation.body.purpose != purpose then Err(PurposeMismatch)
        else if attestation.body.subject != subject then Err(SubjectMismatch)
        else if attestation.body.payload != PayloadDigest(payload) then Err(PayloadMismatch)
        else if now < attestation.body.issuedAt then Err(NotYetValid)
        else if attestation.body.expiresAt.Some? && now >= attestation.body.expiresAt.value then Err(Expired)
        else if !crypto.edVerify(key.publicKey, attestation.body, attestation.signature) then Err(SignatureInvalid)
        else Ok(SourceVerification(AttestationDigest(attestation), pinned, KeyDigest(key)))
  }

  function SignAttestation(crypto: Crypto, trustSet: TrustSet, pinned: TrustSetDigest, keyId: string, secret: string,
                           purpose: Purpose, subject: string, payload: string, issuedAt: nat,
                           expiresAt: Option<nat>, nonce: string): Result<Attestation, Error>
  {
    if TrustSetDigest(trustSet) != pinned then Err(TrustSetMismatch)
    else
      var found := FindKey(trustSet.keys, keyId);
      if found.None? then Err(UnknownKey)
      else
        var key := found.value;
        if key.status != Active then Err(KeyNotActive)
        else if purpose !in key.purposes then Err(PurposeNotAllowed)
        else if OutsideLifecycle(key.notBefore, key.retireAt, issuedAt).Some?
        then Err(OutsideLifecycle(key.notBefore, key.retireAt, issuedAt).value)
        else if crypto.edPublic(secret) != key.publicKey then Err(PrivateKeyMismatch)
        else if expiresAt.Some? && expiresAt.value <= issuedAt then Err(Expired)
        else if Strip(nonce) == "" then Err(BlankNonce)
        else
          var body := AttestationBody(keyId, purpose, subject, PayloadDigest(payload), issuedAt, expiresAt, Strip(nonce));
          Ok(Attestation(body, crypto.edSign(secret, body)))
  }

  /** A fresh attestation is valid exactly from its issue until its expiry. */
  lemma AttestationIsValidUntilExpiry(crypto: Crypto, trustSet: TrustSet, pinned: TrustSetDigest, keyId: string,
                                      secret: string, purpose: Purpose, subject: string, payload: string,
                                      issuedAt: nat, expiresAt: Option<nat>, nonce: string, now: nat)
    requires Correct(crypto)
    requires SignAttestation(crypto, trustSet, pinned, keyId, secret, purpose, subject, payload, issuedAt, expiresAt, nonce).Ok?
    ensures var attestation := SignAttestation(crypto, trustSet, pinned, keyId, secret, purpose, subject, payload,
                                               issuedAt, expiresAt, nonce).value;
            VerifySource(crypto, trustSet, pinned, attestation, purpose, subject, payload, now).Ok?
            <==> issuedAt <= now && (expiresAt.Some? ==> now < expiresAt.value)
  {
  }

  /** An attestation is signed exactly with the private key of an active listed key, in the key's life and purpose,
      to expire only after its issue, and with a nonce that is not blank. It then verifies at once. */
  lemma AttestationSignedExactlyWhen(crypto: Crypto, trustSet: TrustSet, pinned: TrustSetDigest, keyId: string,
                                     secret: string, purpose: Purpose, subject: string, payload: string,
                                     issuedAt: nat, expiresAt: Option<nat>, nonce: string)
    requires Correct(crypto) && trustSet.Valid()
    ensures var signed := SignAttestation(crypto, trustSet, pinned, keyId, secret, purpose, subject, payload,
                                          issuedAt, expiresAt, nonce);
            && (signed.Ok? <==>
                  && pinned.trustSet == trustSet
                  && (exists key :: key in trustSet.keys && key.keyId == keyId && key.status == Active
                        && purpose in key.purposes && key.publicKey == crypto.edPublic(secret)
                        && key.notBefore <= issuedAt && !(key.retireAt.Some? && key.retireAt.value <= issuedAt))
                  && !(expiresAt.Some? && expiresAt.value <= issuedAt)
                  && (exists i :: 0 <= i < |nonce| && !IsSpace(nonce[i])))
            && (signed.Ok? ==>
                  VerifySource(crypto, trustSet, pinned, signed.value, purpose, subject, payload, issuedAt).Ok?)
  {
    var i, j := StripRemovesSpace(nonce);
    hide Strip, IsSpace;
    assert i < j ==> !IsSpace(nonce[i]);
    assert (exists k :: 0 <= k < |nonce| && !IsSpace(nonce[k])) ==> i < j;
    var keys := trustSet.keys;
    if FindKey(keys, keyId).Some? {
      var at := FoundIsIn(keys, keyId);
      assert keys[at] in keys;
      forall key | key in keys && key.keyId == keyId ensures key == keys[at] {
        var k :| 0 <= k < |keys| && keys[k] == key;
      }
    } else {
      NotFoundIsNotIn(keys, keyId);
    }
  }

  /** Nobody can produce a signature without the private key: what a public key verifies was signed with its
      private key. Together with correctness this is the ideal the programs rely on. */
  ghost predicate Ideal(crypto: Crypto) {
    && Correct(crypto)
    && (forall public, body, signature {:trigger crypto.edVerify(public, body, signature)} ::
          crypto.edVerify(public, body, signature) ==> SignedEd(crypto, public, body, signature))
    && (forall public, body, signature {:trigger crypto.mlVerify(public, body, signature)} ::
          crypto.mlVerify(public, body, signature) ==> SignedMl(crypto, public, body, signature))
  }

  ghost predicate SignedEd(crypto: Crypto, public: string, body: AttestationBody, signature: string) {
    exists secret :: crypto.edPublic(secret) == public && crypto.edSign(secret, body) == signature
  }

  ghost predicate SignedMl(crypto: Crypto, public: string, body: EnvelopeBody, signature: string) {
    exists secret, coins :: crypto.mlPublic(secret) == public && crypto.mlSign(secret, body, coins) == signature
  }

  /** Signatures that are the private keys themselves. */
  function KeysAsSignatures(): Crypto {
    Crypto(secret => secret, (secret, body) => secret, (public, body, signature) => public == signature,
           secret => secret, (secret, body, coins) => secret, (public, body, signature) => public == signature)
  }

  /** The ideal can be met. */
  lemma IdealSignaturesExist()
    ensures Ideal(KeysAsSignatures())
  {
    var crypto := KeysAsSignatures();
    forall public, body, signature | crypto.mlVerify(public, body, signature) ensures SignedMl(crypto, public, body, signature) {
      assert crypto.mlSign(public, body, 0) == signature;
    }
    forall public, body, signature | crypto.edVerify(public, body, signature) ensures SignedEd(crypto, public, body, signature) {
      assert crypto.edSign(public, body) == signature;
    }
  }

  /** The attestation was signed with the private key of a listed key that has not been revoked, in that key's
      life and for a purpose it serves; it is about this payload, and it is in force at the instant. */
  ghost predicate Attested(crypto: Crypto, trustSet: TrustSet, attestation: Attestation, payload: string, at: nat) {
    var body := attestation.body;
    && (exists key :: key in trustSet.keys && key.keyId == body.keyId && key.status != Revoked
          && body.purpose in key.purposes
          && key.notBefore <= body.issuedAt && !(key.retireAt.Some? && key.retireAt.value <= body.issuedAt)
          && SignedEd(crypto, key.publicKey, body, attestation.signature))
    && body.payload.payload == payload
    && body.issuedAt <= at && !(body.expiresAt.Some? && body.expiresAt.value <= at)
  }

  /** Under a legal, pinned trust set exactly the attestations that were signed as they should be verify, for
      the purpose and the subject they name. */
  lemma AttestationVerifiesExactlyWhen(crypto: Crypto, trustSet: TrustSet, pinned: TrustSetDigest, attestation: Attestation,
                                       purpose: Purpose, subject: string, payload: string, now: nat)
    requires Ideal(crypto) && trustSet.Valid()
    ensures VerifySource(crypto, trustSet, pinned, attestation, purpose, subject, payload, now).Ok? <==>
              && pinned.trustSet == trustSet
              && attestation.body.purpose == purpose && attestation.body.subject == subject
              && Attested(crypto, trustSet, attestation, payload, now)
  {
    hide FindKey, SignedEd;
    var keys, keyId := trustSet.keys, attestation.body.keyId;
    if FindKey(keys, keyId).Some? {
      var i := FoundIsIn(keys, keyId);
      SignaturesVerify(crypto, keys[i].publicKey, attestation.body, attestation.signature);
      assert keys[i] in keys;
      forall key | key in keys && key.keyId == keyId ensures key == keys[i] {
        var j :| 0 <= j < |keys| && keys[j] == key;
      }
    } else {
      NotFoundIsNotIn(keys, keyId);
    }
  }

  lemma SignaturesVerify(crypto: Crypto, public: string, body: AttestationBody, signature: string)
    requires Ideal(crypto)
    ensures crypto.edVerify(public, body, signature) <==> SignedEd(crypto, public, body, signature)
  {
  }

  lemma {:induction false} NotFoundIsNotIn(keys: seq<TrustKey>, keyId: string)
    requires FindKey(keys, keyId).None?
    ensures forall key :: key in keys ==> key.keyId != keyId
  {
    if keys != [] {
      NotFoundIsNotIn(keys[1..], keyId);
      assert keys == [keys[0]] + keys[1..];
    }
  }

  /** The trust set after one key has moved to another lifecycle status, with its own predecessor link. */
  function Moved(trustSet: TrustSet, keyId: string, status: Status, retireAt: nat, previous: Option<string>): TrustSet {
    var keys := trustSet.keys;
    TrustSet(seq(|keys|, i requires 0 <= i < |keys| =>
               if keys[i].keyId == keyId then keys[i].(status := status, retireAt := Some(retireAt)) else keys[i]),
             previous)
  }

  lemma {:induction false} FindKeyFinds(keys: seq<TrustKey>, i: nat)
    requires i < |keys|
    requires forall j, k :: 0 <= j < k < |keys| ==> keys[j].keyId != keys[k].keyId
    ensures FindKey(keys, keys[i].keyId) == Some(keys[i])
  {
    if i > 0 {
      assert keys[0].keyId != keys[i].keyId;
      FindKeyFinds(keys[1..], i - 1);
    }
  }

  lemma {:induction false} FoundIsIn(keys: seq<TrustKey>, keyId: string) returns (i: nat)
    requires FindKey(keys, keyId).Some?
    ensures i < |keys| && keys[i] == FindKey(keys, keyId).value && keys[i].keyId == keyId
  {
    if keys[0].keyId == keyId {
      i := 0;
    } else {
      i := FoundIsIn(keys[1..], keyId);
      i := i + 1;
    }
  }

  /** A legal trust set stays legal when a key moves to RETIRED or REVOKED after its start. */
  lemma MovedIsValid(trustSet: TrustSet, keyId: string, status: Status, retireAt: nat, previous: Option<string>)
    requires trustSet.Valid() && FindKey(trustSet.keys, keyId).Some?
    requires retireAt > FindKey(trustSet.keys, keyId).value.notBefore
    ensures Moved(trustSet, keyId, status, retireAt, previous).Valid()
  {
    var keys, keys' := trustSet.keys, Moved(trustSet, keyId, status, retireAt, previous).keys;
    var at := FoundIsIn(keys, keyId);
    assert forall i :: 0 <= i < |keys| ==> keys'[i].keyId == keys[i].keyId && keys'[i].notBefore == keys[i].notBefore;
    forall i | 0 <= i < |keys'| ensures keys'[i].Valid() {
      assert keys[i] in keys;
      assert keys[i].keyId == keyId ==> i == at;
    }
    assert forall k :: k in keys' ==> k.Valid();
    PredecessorsStay(keys, keys');
  }

  lemma PredecessorsStay(keys: seq<TrustKey>, keys': seq<TrustKey>)
    requires |keys'| == |keys|
    requires forall i :: 0 <= i < |keys| ==>
               && keys'[i].keyId == keys[i].keyId && keys'[i].notBefore == keys[i].notBefore
               && keys'[i].predecessor == keys[i].predecessor
    requires forall k :: k in keys && k.predecessor.Some? ==>
               exists p :: p in keys && p.keyId == k.predecessor.value && p.notBefore < k.notBefore
    ensures forall k :: k in keys' && k.predecessor.Some? ==>
              exists p :: p in keys' && p.keyId == k.predecessor.value && p.notBefore < k.notBefore
  {
    forall k | k in keys' && k.predecessor.Some?
      ensures exists p :: p in keys' && p.keyId == k.predecessor.value && p.notBefore < k.notBefore
    {
      var i :| 0 <= i < |keys'| && keys'[i] == k;
      assert keys[i] in keys;
      var p :| p in keys && p.keyId == k.predecessor.value && p.notBefore < k.notBefore;
      var j :| 0 <= j < |keys| && keys[j] == p;
      assert keys'[j] in keys';
    }
  }

  /** Rotation keeps what was signed. When the signing key of a legal trust set is retired at a later
      time and the new set is pinned, the attestation still verifies exactly until its expiry; when the key
      is revoked instead, it never does. The new sets are ones the program can construct. */
  lemma RotationKeepsAttestations(crypto: Crypto, trustSet: TrustSet, pinned: TrustSetDigest, keyId: string,
                                  secret: string, purpose: Purpose, subject: string, payload: string,
                                  issuedAt: nat, expiresAt: Option<nat>, nonce: string,
                                  retireAt: nat, previous: Option<string>, now: nat)
    requires Correct(crypto) && trustSet.Valid() && issuedAt < retireAt
    requires SignAttestation(crypto, trustSet, pinned, keyId, secret, purpose, subject, payload, issuedAt, expiresAt, nonce).Ok?
    ensures var attestation := SignAttestation(crypto, trustSet, pinned, keyId, secret, purpose, subject, payload,
                                               issuedAt, expiresAt, nonce).value;
            var retired := Moved(trustSet, keyId, Retired, retireAt, previous);
            var revoked := Moved(trustSet, keyId, Revoked, retireAt, previous);
            && retired.Valid() && revoked.Valid()
            && (VerifySource(crypto, retired, TrustSetDigest(retired), attestation, purpose, subject, payload, now).Ok?
                <==> issuedAt <= now && (expiresAt.Some? ==> now < expiresAt.value))
            && VerifySource(crypto, revoked, TrustSetDigest(revoked), attestation, purpose, subject, payload, now) == Err(KeyRevoked)
  {
    hide Strip, FindKey;
    var at := FoundIsIn(trustSet.keys, keyId);
    MovedIsValid(trustSet, keyId, Retired, retireAt, previous);
    MovedIsValid(trustSet, keyId, Revoked, retireAt, previous);
    FindKeyFinds(Moved(trustSet, keyId, Retired, retireAt, previous).keys, at);
    FindKeyFinds(Moved(trustSet, keyId, Revoked, retireAt, previous).keys, at);
  }

  // ---------------------------------------------------------------- migration envelopes

  datatype AdapterProfile = AdapterProfile(description: string)

  datatype ProfileDigest = ProfileDigest(profile: AdapterProfile)

  datatype MigrationKey = MigrationKey(
    keyId: string,
    publicKey: string,
    status: Status,
    notBefore: nat,
    purposes: set<Purpose>,
    predecessor: string,
    profile: ProfileDigest,
    retireAt: Option<nat>)
  {
    predicate Valid() {
      && (retireAt.Some? ==> retireAt.value > notBefore)
      && (status == Retired ==> retireAt.Some?)
      && purposes != {}
    }
  }

  /** The part of a key that lifecycle transitions leave alone. */
  datatype KeyMaterial = KeyMaterial(
    keyId: string,
    publicKey: string,
    purposes: set<Purpose>,
    predecessor: string,
    profile: ProfileDigest)

  function MaterialOf(key: MigrationKey): KeyMaterial {
    KeyMaterial(key.keyId, key.publicKey, key.purposes, key.predecessor, key.profile)
  }

  datatype MaterialDigest = MaterialDigest(material: KeyMaterial)

  datatype ContextDigest = ContextDigest(key: MigrationKey)

  datatype EnvelopeBody = EnvelopeBody(
    sourceAttestation: AttestationDigest,
    sourceVerification: SourceVerificationDigest,
    sourceTrustSet: TrustSetDigest,
    sourceKey: KeyDigest,
    purpose: Purpose,
    subject: string,
    payload: PayloadDigest,
    material: MaterialDigest,
    profile: ProfileDigest,
    signerRuntime: string,
    issuedAt: nat,
    nonce: string)

  datatype Envelope = Envelope(body: EnvelopeBody, signature: string)

  datatype EnvelopeDigest = EnvelopeDigest(envelope: Envelope)

  datatype MigrationVerification = MigrationVerification(
    sourceVerification: SourceVerificationDigest,
    envelope: EnvelopeDigest,
    material: MaterialDigest,
    context: ContextDigest,
    profile: ProfileDigest,
    signerRuntime: string)

  /** The source evidence and the identities a caller has pinned from outside. */
  datatype Source = Source(attestation: Attestation, payload: string, trustSet: TrustSet)

  datatype Pins = Pins(trustSet: TrustSetDigest, context: ContextDigest, profile: ProfileDigest)

  function PinError(source: Source, key: MigrationKey, profile: AdapterProfile, pins: Pins): Option<Error> {
    if TrustSetDigest(source.trustSet) != pins.trustSet then Some(TrustSetMismatch)
    else if ContextDigest(key) != pins.context then Some(KeyContextMismatch)
    else if ProfileDigest(profile) != pins.profile then Some(ProfileMismatch)
    else if key.profile != ProfileDigest(profile) then Some(OtherProfile)
    else None
  }

  /** The runtime is None where the pinned backend is unavailable. */
  function Sign(crypto: Crypto, source: Source, key: MigrationKey, profile: AdapterProfile, pins: Pins, secret: string,
                issuedAt: nat, nonce: string, runtime: Option<string>, coins: nat): Result<Envelope, Error>
  {
    var attestation := source.attestation.body;
    if PinError(source, key, profile, pins).Some? then Err(PinError(source, key, profile, pins).value)
    else if key.status != Active then Err(KeyNotActive)
    else if attestation.purpose !in key.purposes then Err(PurposeNotAllowed)
    else if key.predecessor != attestation.keyId then Err(PredecessorMismatch)
    else if OutsideLifecycle(key.notBefore, key.retireAt, issuedAt).Some?
    then Err(OutsideLifecycle(key.notBefore, key.retireAt, issuedAt).value)
    else if issuedAt < attestation.issuedAt then Err(PredatesSource)
    else if runtime.None? then Err(RuntimeUnsupported)
    else if crypto.mlPublic(secret) != key.publicKey then Err(PrivateKeyMismatch)
    else
      var verified := VerifySource(crypto, source.trustSet, pins.trustSet, source.attestation, attestation.purpose,
                                   attestation.subject, source.payload, issuedAt);
      if verified.Err? then Err(verified.error)
      else if !Canonical(nonce) then Err(BlankNonce)
      else
        var body := EnvelopeBody(AttestationDigest(source.attestation), SourceVerificationDigest(verified.value),
                                 verified.value.trustSet, verified.value.key, attestation.purpose,
                                 attestation.subject, PayloadDigest(source.payload), MaterialDigest(MaterialOf(key)),
                                 ProfileDigest(profile), runtime.value, issuedAt, nonce);
        Ok(Envelope(body, crypto.mlSign(secret, body, coins)))
  }

  function Verify(crypto: Crypto, envelope: Envelope, source: Source, key: MigrationKey, profile: AdapterProfile,
                  pins: Pins, runtime: Option<string>, now: nat): Result<MigrationVerification, Error>
  {
    var body := envelope.body;
    if PinError(source, key, profile, pins).Some? then Err(PinError(source, key, profile, pins).value)
    else if key.status == Revoked then Err(KeyRevoked)
    else if body.purpose !in key.purposes then Err(PurposeNotAllowed)
    else if key.predecessor != source.attestation.body.keyId then Err(PredecessorMismatch)
    else if OutsideLifecycle(key.notBefore, key.retireAt, body.issuedAt).Some?
    then Err(OutsideLifecycle(key.notBefore, key.retireAt, body.issuedAt).value)
    else if now < body.issuedAt then Err(NotYetValid)
    else if runtime.None? then Err(RuntimeUnsupported)
    else
      var verified := VerifySource(crypto, source.trustSet, pins.trustSet, source.attestation, body.purpose,
                                   body.subject, source.payload, body.issuedAt);
      if verified.Err? then Err(verified.error)
      else if body.sourceAttestation != AttestationDigest(source.attestation)
              || body.sourceVerification != SourceVerificationDigest(verified.value)
              || body.sourceTrustSet != verified.value.trustSet
              || body.sourceKey != verified.value.key
              || body.purpose != source.attestation.body.purpose
              || body.subject != source.attestation.body.subject
              || body.payload != PayloadDigest(source.payload)
              || body.material != MaterialDigest(MaterialOf(key))
              || body.profile != ProfileDigest(profile)
      then Err(BindingMismatch)
      else if !crypto.mlVerify(key.publicKey, body, envelope.signature) then Err(SignatureInvalid)
      else Ok(MigrationVerification(SourceVerificationDigest(verified.value), EnvelopeDigest(envelope),
                                    MaterialDigest(MaterialOf(key)), ContextDigest(key), ProfileDigest(profile),
                                    body.signerRuntime))
  }

  /** Exactly the envelopes that were made as they should be verify: with the private key of a migration key that
      serves the purpose, succeeds the source's key, has not been revoked and was in its life; over a source
      attestation in force when the envelope was issued; naming just this source, payload, key material and
      profile; and not before they were issued. */
  lemma EnvelopeVerifiesExactlyWhen(crypto: Crypto, envelope: Envelope, source: Source, key: MigrationKey,
                                    profile: AdapterProfile, pins: Pins, runtime: Option<string>, now: nat)
    requires Ideal(crypto) && source.trustSet.Valid()
    ensures var body, attestation := envelope.body, source.attestation;
            Verify(crypto, envelope, source, key, profile, pins, runtime, now).Ok? <==>
              && pins.trustSet.trustSet == source.trustSet && pins.context.key == key
              && pins.profile.profile == profile && key.profile.profile == profile
              && key.status != Revoked && attestation.body.purpose in key.purposes
              && key.predecessor == attestation.body.keyId
              && key.notBefore <= body.issuedAt && !(key.retireAt.Some? && key.retireAt.value <= body.issuedAt)
              && Attested(crypto, source.trustSet, attestation, source.payload, body.issuedAt)
              && runtime.Some? && body.issuedAt <= now
              && (body.purpose, body.subject, body.payload.payload)
                 == (attestation.body.purpose, attestation.body.subject, source.payload)
              && body.sourceAttestation.attestation == attestation && body.sourceTrustSet.trustSet == source.trustSet
              && body.sourceKey.key in source.trustSet.keys && body.sourceKey.key.keyId == attestation.body.keyId
              && body.sourceVerification.verification
                 == SourceVerification(body.sourceAttestation, body.sourceTrustSet, body.sourceKey)
              && body.material.material == MaterialOf(key) && body.profile.profile == profile
              && SignedMl(crypto, key.publicKey, body, envelope.signature)
  {
    hide FindKey, SignedMl, Attested, TrustSet.Valid;
    var body, attestation := envelope.body, source.attestation;
    EnvelopeSignaturesVerify(crypto, key.publicKey, body, envelope.signature);
    AttestationVerifiesExactlyWhen(crypto, source.trustSet, pins.trustSet, attestation, body.purpose, body.subject,
                                   source.payload, body.issuedAt);
    SourceKeyIsFound(source.trustSet, attestation.body.keyId, body.sourceKey.key);
  }

  lemma EnvelopeSignaturesVerify(crypto: Crypto, public: string, body: EnvelopeBody, signature: string)
    requires Ideal(crypto)
    ensures crypto.mlVerify(public, body, signature) <==> SignedMl(crypto, public, body, signature)
  {
  }

  lemma SourceKeyIsFound(trustSet: TrustSet, keyId: string, key: TrustKey)
    requires trustSet.Valid()
    ensures FindKey(trustSet.keys, keyId) == Some(key) <==> key in trustSet.keys && key.keyId == keyId
  {
    hide FindKey;
    if key in trustSet.keys && key.keyId == keyId {
      var i :| 0 <= i < |trustSet.keys| && trustSet.keys[i] == key;
      FindKeyFinds(trustSet.keys, i);
    }
    if FindKey(trustSet.keys, keyId) == Some(key) {
      var i := FoundIsIn(trustSet.keys, keyId);
    }
  }

  /** Only the holder of an active key signs, in the key's life, over a source in force, with a nonce of its own. */
  lemma OnlyActiveKeysSign(crypto: Crypto, source: Source, key: MigrationKey, profile: AdapterProfile, pins: Pins, secret: string,
                           issuedAt: nat, nonce: string, runtime: Option<string>, coins: nat)
    requires Ideal(crypto) && source.trustSet.Valid()
    ensures Sign(crypto, source, key, profile, pins, secret, issuedAt, nonce, runtime, coins).Ok? <==>
              && pins.trustSet.trustSet == source.trustSet && pins.context.key == key
              && pins.profile.profile == profile && key.profile.profile == profile
              && key.status == Active && source.attestation.body.purpose in key.purposes
              && key.predecessor == source.attestation.body.keyId
              && key.notBefore <= issuedAt && !(key.retireAt.Some? && key.retireAt.value <= issuedAt)
              && Attested(crypto, source.trustSet, source.attestation, source.payload, issuedAt)
              && crypto.mlPublic(secret) == key.publicKey
              && runtime.Some? && Canonical(nonce)
  {
    hide FindKey, Attested, TrustSet.Valid, VerifySource, Canonical;
    AttestationVerifiesExactlyWhen(crypto, source.trustSet, pins.trustSet, source.attestation, source.attestation.body.purpose,
                                   source.attestation.body.subject, source.payload, issuedAt);
    if Attested(crypto, source.trustSet, source.attestation, source.payload, issuedAt) {
      AttestedWhenIssued(crypto, source.trustSet, source.attestation, source.payload, issuedAt);
    }
  }

  lemma AttestedWhenIssued(crypto: Crypto, trustSet: TrustSet, attestation: Attestation, payload: string, at: nat)
    requires Attested(crypto, trustSet, attestation, payload, at)
    ensures attestation.body.issuedAt <= at
  {
  }

  // ---------------------------------------------------------------- what the envelope is worth later

  /** Exactly when a signed envelope verifies, for any evidence, key, pins and time that a later
      verifier presents. The evidence and the key material must be the signer's, the pins must match
      what is presented, the key must not be revoked or have its life moved off the issue time, and the
      envelope must have been issued. The expiry of the source attestation plays no part. */
  lemma SignedEnvelopeVerifiesExactlyWhen(
      crypto: Crypto, source: Source, key: MigrationKey, profile: AdapterProfile, pins: Pins, secret: string,
      issuedAt: nat, nonce: string, runtime: Option<string>, coins: nat,
      source': Source, key': MigrationKey, profile': AdapterProfile, pins': Pins, runtime': Option<string>, now: nat)
    requires Correct(crypto)
    requires Sign(crypto, source, key, profile, pins, secret, issuedAt, nonce, runtime, coins).Ok?
    ensures var envelope := Sign(crypto, source, key, profile, pins, secret, issuedAt, nonce, runtime, coins).value;
            Verify(crypto, envelope, source', key', profile', pins', runtime', now).Ok? <==>
            && source' == source && MaterialOf(key') == MaterialOf(key) && profile' == profile
            && pins' == Pins(TrustSetDigest(source'.trustSet), ContextDigest(key'), ProfileDigest(profile'))
            && key'.status != Revoked
            && key'.notBefore <= issuedAt && !(key'.retireAt.Some? && key'.retireAt.value <= issuedAt)
            && runtime'.Some?
            && issuedAt <= now
  {
    hide Canonical;
  }

  /** Evidence outlives its key. On a supported runtime the envelope is accepted at every time from its
      issue on, also after the source attestation has expired and after the migration key has moved from
      ACTIVE to RETIRED at a later time and been pinned anew. Once the key is REVOKED it never is. */
  lemma EvidenceOutlivesItsKey(
      crypto: Crypto, source: Source, key: MigrationKey, profile: AdapterProfile, pins: Pins, secret: string,
      issuedAt: nat, nonce: string, runtime: Option<string>, coins: nat, retireAt: nat, later: string, now: nat)
    requires Correct(crypto)
    requires Sign(crypto, source, key, profile, pins, secret, issuedAt, nonce, runtime, coins).Ok?
    requires issuedAt <= now && issuedAt < retireAt
    ensures var envelope := Sign(crypto, source, key, profile, pins, secret, issuedAt, nonce, runtime, coins).value;
            var retired := key.(status := Retired, retireAt := Some(retireAt));
            var revoked := key.(status := Revoked);
            && (key.Valid() ==> retired.Valid() && revoked.Valid())
            && Verify(crypto, envelope, source, key, profile, pins, Some(later), now).Ok?
            && Verify(crypto, envelope, source, retired, profile, pins.(context := ContextDigest(retired)), Some(later), now).Ok?
            && Verify(crypto, envelope, source, revoked, profile, pins.(context := ContextDigest(revoked)), Some(later), now).Err?
            && (source.attestation.body.expiresAt.Some? && source.attestation.body.expiresAt.value <= now ==>
                  VerifySource(crypto, source.trustSet, pins.trustSet, source.attestation, source.attestation.body.purpose,
                               source.attestation.body.subject, source.payload, now) == Err(Expired))
  {
    var retired := key.(status := Retired, retireAt := Some(retireAt));
    var revoked := key.(status := Revoked);
    SignedEnvelopeVerifiesExactlyWhen(crypto, source, key, profile, pins, secret, issuedAt, nonce, runtime, coins,
                                      source, key, profile, pins, Some(later), now);
    SignedEnvelopeVerifiesExactlyWhen(crypto, source, key, profile, pins, secret, issuedAt, nonce, runtime, coins,
                                      source, retired, profile, pins.(context := ContextDigest(retired)), Some(later), now);
    SignedEnvelopeVerifiesExactlyWhen(crypto, source, key, profile, pins, secret, issuedAt, nonce, runtime, coins,
                                      source, revoked, profile, pins.(context := ContextDigest(revoked)), Some(later), now);
  }

  /** No envelope, however it was made, serves two different sources or two different key materials,
      and every verification of it reports the same source verification. */
  lemma EnvelopePinsItsSource(
      crypto: Crypto, envelope: Envelope,
      a: Source, keyA: MigrationKey, profileA: AdapterProfile, pinsA: Pins, runtimeA: Option<string>, nowA: nat,
      b: Source, keyB: MigrationKey, profileB: AdapterProfile, pinsB: Pins, runtimeB: Option<string>, nowB: nat)
    requires Verify(crypto, envelope, a, keyA, profileA, pinsA, runtimeA, nowA).Ok?
    requires Verify(crypto, envelope, b, keyB, profileB, pinsB, runtimeB, nowB).Ok?
    ensures a == b && MaterialOf(keyA) == MaterialOf(keyB) && profileA == profileB
    ensures Verify(crypto, envelope, a, keyA, profileA, pinsA, runtimeA, nowA).value.sourceVerification
         == Verify(crypto, envelope, b, keyB, profileB, pinsB, runtimeB, nowB).value.sourceVerification
    ensures VerifySource(crypto, a.trustSet, TrustSetDigest(a.trustSet), a.attestation, a.attestation.body.purpose,
                         a.attestation.body.subject, a.payload, envelope.body.issuedAt).Ok?
  {
    hide Canonical;
  }
}
