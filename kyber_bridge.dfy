/**
 * The web bridge that wraps a 64-byte master key with ML-KEM-768. The KEM
 * itself is a parameter (`Kem`); what is modelled is the bridge's own work:
 * the `isInitialized` guard, input validation, the XOR of the master key with
 * the shared secret repeated cyclically, the `[ciphertext][encrypted key]`
 * layout and the length check and split on the way back.
 */
module KyberBridge {
  import opened Wrappers
  import Hex

  type byte = Hex.byte

  /** The master key is always 64 bytes. */
  const MasterKeyLength: nat := 64
  /** The ML-KEM-768 ciphertext length the decapsulation expects. */
  const CiphertextSize: nat := 1088

  datatype BridgeError =
    | NotInitialized
    | InvalidMasterKey(received: Option<nat>)
    | InvalidPublicKey
    | InvalidEncapsulatedData
    | InvalidSecretKey
    | DataTooShort(length: nat, minimum: nat)
    | KemError

  datatype KeyPair = KeyPair(publicKey: seq<byte>, secretKey: seq<byte>)
  datatype Encapsulation = Encapsulation(cipherText: seq<byte>, sharedSecret: seq<byte>)

  /**
   * `ml_kem768` as the bridge uses it; `None` stands for an exception. The
   * encapsulation's randomness is fixed, so it is a function of the public key.
   */
  datatype Kem = Kem(encapsulate: seq<byte> -> Option<Encapsulation>,
                     decapsulate: (seq<byte>, seq<byte>) -> Option<seq<byte>>)

  /** The correctness of ML-KEM for one key pair, as the bridge relies on it. */
  predicate KemCorrectFor(kem: Kem, keys: KeyPair)
  {
    match kem.encapsulate(keys.publicKey)
    case None => true
    case Some(e) =>
      |e.cipherText| == CiphertextSize && kem.decapsulate(e.cipherText, keys.secretKey) == Some(e.sharedSecret)
  }

  /** `sharedSecret[i % sharedSecret.length]`; with an empty secret the index is `NaN` and XOR sees 0. */
  function MaskByte(sharedSecret: seq<byte>, i: nat): byte
  {
    if |sharedSecret| == 0 then 0 else sharedSecret[i % |sharedSecret|]
  }

  /** The 64 bytes `key[i] ^ sharedSecret[i % |sharedSecret|]`. */
  function XorMask(key: seq<byte>, sharedSecret: seq<byte>): (r: seq<byte>)
    requires |key| == MasterKeyLength
    ensures |r| == MasterKeyLength
  {
    seq(MasterKeyLength, i requires 0 <= i < MasterKeyLength => key[i] ^ MaskByte(sharedSecret, i))
  }

  /** XOR with the same repeated mask undoes itself. */
  lemma XorMaskInvolution(key: seq<byte>, sharedSecret: seq<byte>)
    requires |key| == MasterKeyLength
    ensures XorMask(XorMask(key, sharedSecret), sharedSecret) == key
  {
    var once := XorMask(key, sharedSecret);
    var twice := XorMask(once, sharedSecret);
    forall i | 0 <= i < MasterKeyLength
      ensures twice[i] == key[i]
    {
      var m := MaskByte(sharedSecret, i);
      assert twice[i] == (key[i] ^ m) ^ m;
    }
  }

  /** What `encapsulateKyberKey` returns or throws. */
  function Encapsulated(initialized: bool, masterKey: Option<seq<byte>>, publicKey: Option<seq<byte>>,
                        kem: Kem): Result<seq<byte>, BridgeError>
  {
    if !initialized then Failure(NotInitialized)
    else if masterKey.None? then Failure(InvalidMasterKey(None))
    else if |masterKey.value| != MasterKeyLength then Failure(InvalidMasterKey(Some(|masterKey.value|)))
    else if publicKey.None? || |publicKey.value| == 0 then Failure(InvalidPublicKey)
    else match kem.encapsulate(publicKey.value)
      case None => Failure(KemError)
      case Some(e) => Success(e.cipherText + XorMask(masterKey.value, e.sharedSecret))
  }

  /** What `decapsulateKyberKey` returns or throws. */
  function Decapsulated(initialized: bool, data: Option<seq<byte>>, secretKey: Option<seq<byte>>,
                        kem: Kem): Result<seq<byte>, BridgeError>
  {
    if !initialized then Failure(NotInitialized)
    else if data.None? || |data.value| == 0 then Failure(InvalidEncapsulatedData)
    else if secretKey.None? || |secretKey.value| == 0 then Failure(InvalidSecretKey)
    else if |data.value| < CiphertextSize + MasterKeyLength then
      Failure(DataTooShort(|data.value|, CiphertextSize + MasterKeyLength))
    else
      var cipherText := data.value[..CiphertextSize];
      var encrypted := data.value[CiphertextSize..CiphertextSize + MasterKeyLength];
      match kem.decapsulate(cipherText, secretKey.value)
      case None => Failure(KemError)
      case Some(ss) => Success(XorMask(encrypted, ss))
  }

  /** `secret1.every((byte, index) => byte === secret2[index])`: a missing index never matches. */
  predicate SecretsAgree(secret1: seq<byte>, secret2: seq<byte>)
  {
    |secret1| <= |secret2| && secret1 == secret2[..|secret1|]
  }

  /** `encapsulateKyberKey` throws unless the bridge is ready, the master key is 64 bytes (a wrong length is reported) and the public key is not empty; it succeeds exactly when, in addition, the KEM encapsulates. */
  lemma EncapsulateValidation(initialized: bool, masterKey: Option<seq<byte>>, publicKey: Option<seq<byte>>, kem: Kem)
    ensures var r := Encapsulated(initialized, masterKey, publicKey, kem);
      && (!initialized ==> r == Failure(NotInitialized))
      && (initialized && masterKey.None? ==> r == Failure(InvalidMasterKey(None)))
      && (initialized && masterKey.Some? && |masterKey.value| != MasterKeyLength
          ==> r == Failure(InvalidMasterKey(Some(|masterKey.value|))))
      && (initialized && masterKey.Some? && |masterKey.value| == MasterKeyLength && (publicKey.None? || |publicKey.value| == 0)
          ==> r == Failure(InvalidPublicKey))
      && (r.Success? <==> initialized && masterKey.Some? && |masterKey.value| == MasterKeyLength
                          && publicKey.Some? && |publicKey.value| > 0 && kem.encapsulate(publicKey.value).Some?)
  {
  }

  /** The output is the ciphertext followed by the 64 masked key bytes: byte `|ct| + i` is `masterKey[i] ^ ss[i mod |ss|]`. */
  lemma EncapsulatedLayout(masterKey: seq<byte>, publicKey: seq<byte>, kem: Kem)
    requires Encapsulated(true, Some(masterKey), Some(publicKey), kem).Success?
    ensures var out := Encapsulated(true, Some(masterKey), Some(publicKey), kem).value;
      var e := kem.encapsulate(publicKey).value;
      && |out| == |e.cipherText| + MasterKeyLength
      && out[..|e.cipherText|] == e.cipherText
      && forall i :: 0 <= i < MasterKeyLength ==>
           out[|e.cipherText| + i] == masterKey[i] ^ MaskByte(e.sharedSecret, i)
  {
    var out := Encapsulated(true, Some(masterKey), Some(publicKey), kem).value;
    var e := kem.encapsulate(publicKey).value;
    var masked := XorMask(masterKey, e.sharedSecret);
    assert out == e.cipherText + masked;
    forall i | 0 <= i < MasterKeyLength
      ensures out[|e.cipherText| + i] == masterKey[i] ^ MaskByte(e.sharedSecret, i)
    {
      assert out[|e.cipherText| + i] == masked[i];
    }
  }

  /** `decapsulateKyberKey` throws on an unready bridge, empty data, an empty secret key or data shorter than ciphertext + 64 (reporting both lengths); it succeeds exactly when none of these holds and the KEM decapsulates the ciphertext prefix, and then yields exactly 64 bytes. */
  lemma DecapsulateValidation(initialized: bool, data: Option<seq<byte>>, secretKey: Option<seq<byte>>, kem: Kem)
    ensures var r := Decapsulated(initialized, data, secretKey, kem);
      && (!initialized ==> r == Failure(NotInitialized))
      && (initialized && (data.None? || |data.value| == 0) ==> r == Failure(InvalidEncapsulatedData))
      && (initialized && data.Some? && |data.value| > 0 && (secretKey.None? || |secretKey.value| == 0)
          ==> r == Failure(InvalidSecretKey))
      && (initialized && data.Some? && 0 < |data.value| < CiphertextSize + MasterKeyLength && secretKey.Some? && |secretKey.value| > 0
          ==> r == Failure(DataTooShort(|data.value|, CiphertextSize + MasterKeyLength)))
      && (r.Success? <==> initialized && data.Some? && |data.value| >= CiphertextSize + MasterKeyLength
                          && secretKey.Some? && |secretKey.value| > 0
                          && kem.decapsulate(data.value[..CiphertextSize], secretKey.value).Some?)
      && (r.Success? ==> |r.value| == MasterKeyLength)
  {
  }

  /** Decapsulation looks only at the first `CiphertextSize + 64` bytes; anything after them is ignored. */
  lemma DecapsulateReadsOnlyFrame(initialized: bool, data: seq<byte>, secretKey: Option<seq<byte>>, kem: Kem)
    requires |data| >= CiphertextSize + MasterKeyLength
    ensures Decapsulated(initialized, Some(data), secretKey, kem)
         == Decapsulated(initialized, Some(data[..CiphertextSize + MasterKeyLength]), secretKey, kem)
  {
    var frame := data[..CiphertextSize + MasterKeyLength];
    assert frame[..CiphertextSize] == data[..CiphertextSize];
    assert frame[CiphertextSize..CiphertextSize + MasterKeyLength]
        == data[CiphertextSize..CiphertextSize + MasterKeyLength];
  }

  /** When the KEM decapsulates to the secret it encapsulated, unwrapping the wrapped master key gives it back. */
  lemma RoundTrip(masterKey: seq<byte>, keys: KeyPair, kem: Kem)
    requires |masterKey| == MasterKeyLength && |keys.publicKey| > 0 && |keys.secretKey| > 0
    requires KemCorrectFor(kem, keys) && kem.encapsulate(keys.publicKey).Some?
    ensures Encapsulated(true, Some(masterKey), Some(keys.publicKey), kem).Success?
    ensures Decapsulated(true, Some(Encapsulated(true, Some(masterKey), Some(keys.publicKey), kem).value),
                         Some(keys.secretKey), kem) == Success(masterKey)
  {
    var e := kem.encapsulate(keys.publicKey).value;
    var masked := XorMask(masterKey, e.sharedSecret);
    var data := e.cipherText + masked;
    assert Encapsulated(true, Some(masterKey), Some(keys.publicKey), kem) == Success(data);
    assert data[..CiphertextSize] == e.cipherText;
    assert data[CiphertextSize..CiphertextSize + MasterKeyLength] == masked;
    XorMaskInvolution(masterKey, e.sharedSecret);
  }

  /** A data frame too short by even one byte is refused, whatever the key. */
  lemma ShortFrameRefused(data: seq<byte>, secretKey: seq<byte>, kem: Kem)
    requires 0 < |data| < CiphertextSize + MasterKeyLength && |secretKey| > 0
    ensures Decapsulated(true, Some(data), Some(secretKey), kem)
         == Failure(DataTooShort(|data|, CiphertextSize + MasterKeyLength))
  {
  }

  /** The bridge and its module-level `isInitialized` flag. */
  class NobleBridge {
    var isInitialized: bool

    constructor ()
      ensures !isInitialized
    {
      isInitialized := false;
    }

    /** `initializeNobleBridge()`: a test `keygen()` that returns (`Some`) or throws (`None`). */
    method InitializeNobleBridge(testKeys: Option<KeyPair>) returns (ok: bool)
      modifies this
      ensures ok == testKeys.Some? && isInitialized == ok
    {
      if testKeys.Some? {
        isInitialized := true;
        return true;
      }
      isInitialized := false;
      return false;
    }

    /** `window.mlkem.isReady()`. */
    function IsReady(): bool
      reads this
    {
      isInitialized
    }

    /** `generateKyberKeyPair()`, given what `keygen()` returns or throws. */
    function GenerateKyberKeyPair(keys: Option<KeyPair>): (r: Result<KeyPair, BridgeError>)
      reads this
      ensures r.Success? <==> isInitialized && keys.Some?
      ensures r.Success? ==> r.value == keys.value
      ensures !isInitialized ==> r == Failure(NotInitialized)
    {
      if !isInitialized then Failure(NotInitialized)
      else match keys
        case None => Failure(KemError)
        case Some(k) => Success(k)
    }

    /** `testNobleKyber()`: a fresh key pair, one encapsulation and one decapsulation must agree. */
    function TestNobleKyber(kem: Kem, keys: Option<KeyPair>): bool
      reads this
    {
      if !isInitialized || keys.None? then false
      else match kem.encapsulate(keys.value.publicKey)
        case None => false
        case Some(e) =>
          match kem.decapsulate(e.cipherText, keys.value.secretKey)
          case None => false
          case Some(secret2) => SecretsAgree(e.sharedSecret, secret2)
    }

    /** `encapsulateKyberKey(masterKey, publicKey)`. */
    method EncapsulateKyberKey(masterKey: Option<seq<byte>>, publicKey: Option<seq<byte>>, kem: Kem)
      returns (r: Result<seq<byte>, BridgeError>)
      ensures r == Encapsulated(isInitialized, masterKey, publicKey, kem)
    {
      if !isInitialized {
        return Failure(NotInitialized);
      }
      if masterKey.None? {
        return Failure(InvalidMasterKey(None));
      }
      if |masterKey.value| != MasterKeyLength {
        return Failure(InvalidMasterKey(Some(|masterKey.value|)));
      }
      if publicKey.None? || |publicKey.value| == 0 {
        return Failure(InvalidPublicKey);
      }
      var masterKeyBytes := masterKey.value;
      var encapsulation := kem.encapsulate(publicKey.value);
      if encapsulation.None? {
        return Failure(KemError);
      }
      var cipherText, sharedSecret := encapsulation.value.cipherText, encapsulation.value.sharedSecret;

      var encryptedMasterKey := new byte[MasterKeyLength];
      for i := 0 to MasterKeyLength
        invariant forall k :: 0 <= k < i ==> encryptedMasterKey[k] == masterKeyBytes[k] ^ MaskByte(sharedSecret, k)
      {
        var mask: byte := if |sharedSecret| == 0 then 0 else sharedSecret[i % |sharedSecret|];
        encryptedMasterKey[i] := masterKeyBytes[i] ^ mask;
      }
      ghost var masked := encryptedMasterKey[..];
      assert masked == XorMask(masterKeyBytes, sharedSecret);

      var n := |cipherText|;
      var result := new byte[n + MasterKeyLength];
      for i := 0 to n
        invariant forall k :: 0 <= k < i ==> result[k] == cipherText[k]
        invariant encryptedMasterKey[..] == masked
      {
        result[i] := cipherText[i];
      }
      for i := 0 to MasterKeyLength
        invariant forall k :: 0 <= k < n ==> result[k] == cipherText[k]
        invariant forall k :: 0 <= k < i ==> result[n + k] == masked[k]
        invariant encryptedMasterKey[..] == masked
      {
        result[n + i] := encryptedMasterKey[i];
      }
      assert result[..] == cipherText + masked;
      assert Encapsulated(isInitialized, masterKey, publicKey, kem) == Success(cipherText + masked);
      return Success(result[..]);
    }

    /** `decapsulateKyberKey(encapsulatedData, secretKey)`. */
    method DecapsulateKyberKey(encapsulatedData: Option<seq<byte>>, secretKey: Option<seq<byte>>, kem: Kem)
      returns (r: Result<seq<byte>, BridgeError>)
      ensures r == Decapsulated(isInitialized, encapsulatedData, secretKey, kem)
    {
      if !isInitialized {
        return Failure(NotInitialized);
      }
      if encapsulatedData.None? || |encapsulatedData.value| == 0 {
        return Failure(InvalidEncapsulatedData);
      }
      if secretKey.None? || |secretKey.value| == 0 {
        return Failure(InvalidSecretKey);
      }
      var bytes := encapsulatedData.value;
      var ciphertextSize := CiphertextSize;
      if |bytes| < ciphertextSize + MasterKeyLength {
        return Failure(DataTooShort(|bytes|, ciphertextSize + MasterKeyLength));
      }
      var cipherText := bytes[..ciphertextSize];
      var encryptedMasterKey := bytes[ciphertextSize..ciphertextSize + MasterKeyLength];
      var sharedSecret := kem.decapsulate(cipherText, secretKey.value);
      if sharedSecret.None? {
        return Failure(KemError);
      }
      var ss := sharedSecret.value;

      var masterKey := new byte[MasterKeyLength];
      for i := 0 to MasterKeyLength
        invariant forall k :: 0 <= k < i ==> masterKey[k] == encryptedMasterKey[k] ^ MaskByte(ss, k)
      {
        var mask: byte := if |ss| == 0 then 0 else ss[i % |ss|];
        masterKey[i] := encryptedMasterKey[i] ^ mask;
      }
      assert masterKey[..] == XorMask(encryptedMasterKey, ss);
      return Success(masterKey[..]);
    }
  }

  /** Before initialisation every entry point refuses: key generation, wrapping, unwrapping and the self-test. */
  lemma UninitializedBridgeRefuses(b: NobleBridge, kem: Kem, keys: Option<KeyPair>, masterKey: Option<seq<byte>>,
                                   publicKey: Option<seq<byte>>, data: Option<seq<byte>>, secretKey: Option<seq<byte>>)
    requires !b.isInitialized
    ensures b.GenerateKyberKeyPair(keys) == Failure(NotInitialized)
    ensures !b.TestNobleKyber(kem, keys)
    ensures Encapsulated(b.isInitialized, masterKey, publicKey, kem) == Failure(NotInitialized)
    ensures Decapsulated(b.isInitialized, data, secretKey, kem) == Failure(NotInitialized)
  {
  }

  /** On a ready bridge the self-test passes for a KEM that is correct for the generated key pair. */
  lemma SelfTestPassesForCorrectKem(b: NobleBridge, kem: Kem, keys: KeyPair)
    requires b.isInitialized && KemCorrectFor(kem, keys) && kem.encapsulate(keys.publicKey).Some?
    ensures b.TestNobleKyber(kem, Some(keys))
  {
  }
}
