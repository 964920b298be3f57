/** The biometric PIN cache (data/PinDataStoreManager.kt): a preferences store holding the encrypted
    PIN, the biometric-enabled flag and the timestamp of the last biometric PIN use. Each `edit`
    block is a pure edit of the preferences; the manager applies it in place. */
module PinStore {
  import opened Wrappers

  const EncryptedPinKey: string := "encrypted_user_pin"
  const BiometricEnabledKey: string := "biometric_pin_enabled"
  const LastUsageKey: string := "last_biometric_pin_usage"

  /** The preferences file: string-typed keys and boolean-typed keys. */
  datatype Preferences = Preferences(strings: map<string, string>, booleans: map<string, bool>)

  const EmptyPreferences: Preferences := Preferences(map[], map[])

  function StringAt(p: Preferences, key: string): Option<string> {
    if key in p.strings then Some(p.strings[key]) else None
  }

  /** The stored cipher text of the PIN, if any. */
  function StoredCipher(p: Preferences): Option<string> {
    StringAt(p, EncryptedPinKey)
  }

  /** `isBiometricPinEnabled`: the flag, or false when it was never written or was removed. */
  function BiometricEnabled(p: Preferences): (b: bool)
    ensures BiometricEnabledKey !in p.booleans ==> !b
    ensures b <==> BiometricEnabledKey in p.booleans && p.booleans[BiometricEnabledKey]
  {
    if BiometricEnabledKey in p.booleans then p.booleans[BiometricEnabledKey] else false
  }

  /** `getLastBiometricPinUsage`. */
  function LastUsage(p: Preferences): Option<string> {
    StringAt(p, LastUsageKey)
  }

  /** `getDecryptedPin`: the decrypted cipher, or null when no cipher is stored or decryption
      throws. `decrypt` returns `None` for the SecurityException. The flag is not consulted. */
  function DecryptedPin(p: Preferences, decrypt: string -> Option<string>): (r: Option<string>)
    ensures StoredCipher(p).None? ==> r.None?
    ensures StoredCipher(p).Some? ==> r == decrypt(StoredCipher(p).value)
  {
    match StoredCipher(p)
    case None => None
    case Some(c) => decrypt(c)
  }

  /** The decrypted PIN depends on the cipher alone: whatever the boolean keys, the flag included,
      hold, it is the same. */
  lemma DecryptedPinIgnoresFlag(p: Preferences, booleans: map<string, bool>, decrypt: string -> Option<string>)
    ensures DecryptedPin(p.(booleans := booleans), decrypt) == DecryptedPin(p, decrypt)
  {
  }

  /** The edit of `savePinAndBiometricPreference(pin, enableBiometric)`. `encrypt` returns `None` for
      the SecurityException, after which only the flag is written. */
  function SaveEdit(p: Preferences, pin: string, enableBiometric: bool, encrypt: string -> Option<string>): (r: Preferences)
    ensures enableBiometric && encrypt(pin).Some? ==> StoredCipher(r) == encrypt(pin) && BiometricEnabled(r)
    ensures enableBiometric && encrypt(pin).None? ==> StoredCipher(r) == StoredCipher(p) && !BiometricEnabled(r)
    ensures !enableBiometric ==> StoredCipher(r).None? && !BiometricEnabled(r)
    ensures BiometricEnabledKey in r.booleans
    ensures r.strings - {EncryptedPinKey} == p.strings - {EncryptedPinKey}
    ensures r.booleans - {BiometricEnabledKey} == p.booleans - {BiometricEnabledKey}
  {
    if enableBiometric then
      match encrypt(pin)
      case Some(c) => Preferences(p.strings[EncryptedPinKey := c], p.booleans[BiometricEnabledKey := true])
      case None => Preferences(p.strings, p.booleans[BiometricEnabledKey := false])
    else
      Preferences(p.strings - {EncryptedPinKey}, p.booleans[BiometricEnabledKey := false])
  }

  /** The edit of `clearPinAndBiometricPreference`: the cipher and the flag are removed. */
  function ClearEdit(p: Preferences): (r: Preferences)
    ensures StoredCipher(r).None? && BiometricEnabledKey !in r.booleans
    ensures r.strings - {EncryptedPinKey} == p.strings - {EncryptedPinKey}
    ensures r.booleans - {BiometricEnabledKey} == p.booleans - {BiometricEnabledKey}
  {
    Preferences(p.strings - {EncryptedPinKey}, p.booleans - {BiometricEnabledKey})
  }

  /** The edit of `saveLastBiometricPinUsage(isoDate)`. */
  function UsageEdit(p: Preferences, isoDate: string): (r: Preferences)
    ensures LastUsage(r) == Some(isoDate)
    ensures StoredCipher(r) == StoredCipher(p) && BiometricEnabled(r) == BiometricEnabled(p)
    ensures r.strings - {LastUsageKey} == p.strings - {LastUsageKey}
    ensures r.booleans == p.booleans
  {
    assert EncryptedPinKey != LastUsageKey;
    Preferences(p.strings[LastUsageKey := isoDate], p.booleans)
  }

  /** With decryption inverting encryption, a successful save makes the PIN readable back. */
  lemma SaveThenDecrypt(p: Preferences, pin: string, encrypt: string -> Option<string>, decrypt: string -> Option<string>)
    requires encrypt(pin).Some? && decrypt(encrypt(pin).value) == Some(pin)
    ensures DecryptedPin(SaveEdit(p, pin, true, encrypt), decrypt) == Some(pin)
    ensures BiometricEnabled(SaveEdit(p, pin, true, encrypt))
  {
  }

  /** A failed encryption leaves a previously cached PIN readable although the flag is now false. */
  lemma FailedSaveKeepsStaleCipher(p: Preferences, pin: string, encrypt: string -> Option<string>, decrypt: string -> Option<string>)
    requires encrypt(pin).None?
    ensures DecryptedPin(SaveEdit(p, pin, true, encrypt), decrypt) == DecryptedPin(p, decrypt)
    ensures !BiometricEnabled(SaveEdit(p, pin, true, encrypt))
  {
    var r := SaveEdit(p, pin, true, encrypt);
    assert StoredCipher(r) == StoredCipher(p);
  }

  /** Clearing forgets the PIN and the flag but keeps the last-use timestamp. */
  lemma ClearKeepsUsage(p: Preferences, decrypt: string -> Option<string>)
    ensures DecryptedPin(ClearEdit(p), decrypt).None?
    ensures !BiometricEnabled(ClearEdit(p))
    ensures LastUsage(ClearEdit(p)) == LastUsage(p)
  {
    assert LastUsageKey != EncryptedPinKey;
    assert LastUsageKey in ClearEdit(p).strings <==> LastUsageKey in (p.strings - {EncryptedPinKey});
  }

  /** Only `saveLastBiometricPinUsage` writes the last-use timestamp, and it reads back. */
  lemma OnlyUsageEditWritesUsage(p: Preferences, pin: string, enableBiometric: bool, encrypt: string -> Option<string>, isoDate: string)
    ensures LastUsage(SaveEdit(p, pin, enableBiometric, encrypt)) == LastUsage(p)
    ensures LastUsage(ClearEdit(p)) == LastUsage(p)
    ensures LastUsage(UsageEdit(p, isoDate)) == Some(isoDate)
  {
    assert LastUsageKey != EncryptedPinKey;
    var r := SaveEdit(p, pin, enableBiometric, encrypt);
    assert LastUsageKey in r.strings <==> LastUsageKey in (r.strings - {EncryptedPinKey});
    assert LastUsageKey in p.strings <==> LastUsageKey in (p.strings - {EncryptedPinKey});
    if LastUsageKey in p.strings {
      assert (r.strings - {EncryptedPinKey})[LastUsageKey] == r.strings[LastUsageKey];
      assert (p.strings - {EncryptedPinKey})[LastUsageKey] == p.strings[LastUsageKey];
    }
    ClearKeepsUsage(p, (s: string) => None);
  }

  /** PinDataStoreManager over its preferences file. Encryption and decryption are the key-store
      cipher, abstracted as functions that may fail. */
  class PinDataStore {
    var prefs: Preferences
    const encrypt: string -> Option<string>
    const decrypt: string -> Option<string>

    constructor(initial: Preferences, encrypt: string -> Option<string>, decrypt: string -> Option<string>)
      ensures prefs == initial && this.encrypt == encrypt && this.decrypt == decrypt
    {
      prefs := initial;
      this.encrypt := encrypt;
      this.decrypt := decrypt;
    }

    method SavePinAndBiometricPreference(pin: string, enableBiometric: bool)
      modifies this
      ensures prefs == SaveEdit(old(prefs), pin, enableBiometric, encrypt)
    {
      if enableBiometric {
        var encrypted := encrypt(pin);
        if encrypted.Some? {
          prefs := prefs.(strings := prefs.strings[EncryptedPinKey := encrypted.value]);
          prefs := prefs.(booleans := prefs.booleans[BiometricEnabledKey := true]);
        } else {
          prefs := prefs.(booleans := prefs.booleans[BiometricEnabledKey := false]);
        }
      } else {
        prefs := prefs.(strings := prefs.strings - {EncryptedPinKey});
        prefs := prefs.(booleans := prefs.booleans[BiometricEnabledKey := false]);
      }
    }

    method GetDecryptedPin() returns (pin: Option<string>)
      ensures pin == DecryptedPin(prefs, decrypt)
    {
      var encryptedPin := if EncryptedPinKey in prefs.strings then Some(prefs.strings[EncryptedPinKey]) else None;
      if encryptedPin.Some? {
        pin := decrypt(encryptedPin.value);
      } else {
        pin := None;
      }
    }

    method IsBiometricPinEnabled() returns (enabled: bool)
      ensures enabled == BiometricEnabled(prefs)
    {
      enabled := if BiometricEnabledKey in prefs.booleans then prefs.booleans[BiometricEnabledKey] else false;
    }

    method ClearPinAndBiometricPreference()
      modifies this
      ensures prefs == ClearEdit(old(prefs))
    {
      prefs := prefs.(strings := prefs.strings - {EncryptedPinKey});
      prefs := prefs.(booleans := prefs.booleans - {BiometricEnabledKey});
    }

    method SaveLastBiometricPinUsage(isoDate: string)
      modifies this
      ensures prefs == UsageEdit(old(prefs), isoDate)
    {
      prefs := prefs.(strings := prefs.strings[LastUsageKey := isoDate]);
    }

    method GetLastBiometricPinUsage() returns (isoDate: Option<string>)
      ensures isoDate == LastUsage(prefs)
    {
      isoDate := if LastUsageKey in prefs.strings then Some(prefs.strings[LastUsageKey]) else None;
    }
  }
}
