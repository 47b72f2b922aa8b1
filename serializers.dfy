/**
 * `TransactionSerializer`: the description is encrypted when a transaction
 * is created and decrypted when it is rendered; a description that does not
 * decrypt is rendered as stored. Serializer rows are maps from field name to
 * value.
 */
module Serializers {
  import opened Base
  import opened CryptoUtils

  datatype Value = VStr(s: string) | VNum(x: real) | VInt(i: int) | VNull

  type Fields = map<string, Value>

  const Description: string := "description"

  /** `desc` is truthy: the row holds a non-empty string description. */
  predicate HasText(fields: Fields) {
    Description in fields && fields[Description].VStr? && fields[Description].s != ""
  }

  /** Every field other than the description is the same in both rows. */
  predicate SameOutsideDescription(a: Fields, b: Fields) {
    a.Keys == b.Keys && forall k :: k in a && k != Description ==> b[k] == a[k]
  }

  /**
   * `TransactionSerializer.create`: a non-empty description is replaced by
   * its encryption before the row is stored; an empty or missing one is
   * stored as it is. A failure to encrypt propagates.
   */
  method Create(p: Primitives, setting: SecretSetting, nonce: Bytes, validated: Fields)
    returns (r: Result<Fields, CryptoError>)
    requires |nonce| == NonceSize
    requires Description in validated ==> validated[Description].VStr?
    ensures !HasText(validated) ==> r == Ok(validated)
    ensures HasText(validated) ==>
              match EncryptData(p, setting, nonce, validated[Description].s)
              case Err(e) => r == Err(e)
              case Ok(enc) => r.Ok? && Description in r.value && r.value[Description] == VStr(enc)
    ensures r.Ok? ==> SameOutsideDescription(validated, r.value)
    ensures r.Err? ==> r == Err(SecretMissing)
  {
    var data := validated;
    if HasText(data) {
      var enc := EncryptData(p, setting, nonce, data[Description].s);
      if enc.Err? {
        return Err(enc.error);
      }
      data := data[Description := VStr(enc.value)];
    }
    r := Ok(data);
  }

  /**
   * `TransactionSerializer.to_representation`: a non-empty string
   * description is replaced by its decryption when that succeeds and left as
   * stored when decryption raises; nothing else changes.
   */
  method ToRepresentation(p: Primitives, setting: SecretSetting, stored: Fields) returns (ret: Fields)
    ensures SameOutsideDescription(stored, ret)
    ensures !HasText(stored) ==> ret == stored
    ensures HasText(stored) ==>
              match DecryptData(p, setting, stored[Description].s)
              case Ok(plain) => ret[Description] == VStr(plain)
              case Err(_) => ret == stored
  {
    ret := stored;
    if HasText(ret) {
      var dec := DecryptData(p, setting, ret[Description].s);
      if dec.Ok? {
        ret := ret[Description := VStr(dec.value)];
      }
    }
  }

  /**
   * Creating a transaction and rendering the stored row gives back the
   * submitted fields, the description as the plain text written. The id, user
   * and date the framework adds are outside this field map.
   */
  method CreateThenRender(p: Primitives, setting: SecretSetting, nonce: Bytes, validated: Fields)
    returns (back: Result<Fields, CryptoError>)
    requires Sound(p) && |nonce| == NonceSize && DeriveKey(p, setting).Ok?
    requires Description in validated ==> validated[Description].VStr?
    ensures back == Ok(validated)
  {
    if HasText(validated) {
      DecryptEncrypt(p, setting, nonce, validated[Description].s);
    }
    back := Create(p, setting, nonce, validated);
    if back.Ok? {
      var rendered := ToRepresentation(p, setting, back.value);
      assert forall k :: k in validated ==> rendered[k] == validated[k];
      assert rendered.Keys == validated.Keys;
      assert rendered == validated;
      back := Ok(rendered);
    }
  }
}
