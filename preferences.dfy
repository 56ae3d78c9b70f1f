/**
 * PreferenceManager: the app's settings in the `finvovo_prefs` shared
 * preferences file. Each setting is a key with a default that a read
 * returns while the key is absent. Booleans and strings are kept in two
 * maps; every key in the app is used with one type only.
 */
module Preferences {
  import opened Wrappers

  const SetupDoneKey := "is_setup_done"
  const PinCodeKey := "pin_code"
  const BiometricKey := "is_biometric_enabled"
  const TutorialKey := "is_tutorial_completed"
  const CurrencyKey := "currency_symbol"
  const VibrationKey := "vibration_enabled"
  const AppLockKey := "is_app_lock_enabled"
  const QuestionKey := "security_question_1"
  const AnswerKey := "security_answer_1"

  /** The symbol shown before amounts until the user picks a currency. */
  const DefaultCurrency := "₹"

  /** `getBoolean(key, default)` */
  function BoolOr(m: map<string, bool>, key: string, default: bool): (b: bool)
    ensures key !in m ==> b == default
    ensures key in m ==> b == m[key]
  {
    if key in m then m[key] else default
  }

  /** `getString(key, null)` */
  function StringOpt(m: map<string, string>, key: string): (s: Option<string>)
    ensures s.Some? <==> key in m
    ensures s.Some? ==> s.value == m[key]
  {
    if key in m then Some(m[key]) else None
  }

  /** `putString(key, value)`: a null value removes the key. */
  function PutString(m: map<string, string>, key: string, value: Option<string>): (r: map<string, string>)
    ensures StringOpt(r, key) == value
    ensures forall k | k != key :: StringOpt(r, k) == StringOpt(m, k)
  {
    match value
    case Some(v) => m[key := v]
    case None => m - {key}
  }

  class PreferenceManager {
    var bools: map<string, bool>
    var strings: map<string, string>
    /** The `currencySymbol` state flow, kept in step with the stored symbol. */
    var currencySymbol: string

    predicate Valid()
      reads this
    {
      currencySymbol == SelectedCurrencySymbol()
    }

    /** Opens the preferences file with the given contents; the flow starts from the stored symbol. */
    constructor (bools: map<string, bool>, strings: map<string, string>)
      ensures Valid()
      ensures this.bools == bools && this.strings == strings
    {
      this.bools := bools;
      this.strings := strings;
      currencySymbol := StringOpt(strings, CurrencyKey).GetOr(DefaultCurrency);
    }

    function IsSetupDone(): bool reads this { BoolOr(bools, SetupDoneKey, false) }
    function PinCode(): Option<string> reads this { StringOpt(strings, PinCodeKey) }
    function IsBiometricEnabled(): bool reads this { BoolOr(bools, BiometricKey, false) }
    function IsTutorialCompleted(): bool reads this { BoolOr(bools, TutorialKey, false) }
    function SelectedCurrencySymbol(): string reads this { StringOpt(strings, CurrencyKey).GetOr(DefaultCurrency) }
    function IsVibrationEnabled(): bool reads this { BoolOr(bools, VibrationKey, true) }
    function IsAppLockEnabled(): bool reads this { BoolOr(bools, AppLockKey, true) }
    function SecurityQuestion1(): Option<string> reads this { StringOpt(strings, QuestionKey) }
    function SecurityAnswer1(): Option<string> reads this { StringOpt(strings, AnswerKey) }

    /** The settings a fresh install reads. */
    lemma FreshInstallDefaults()
      requires bools == map[] && strings == map[]
      ensures !IsSetupDone() && PinCode() == None && !IsBiometricEnabled() && !IsTutorialCompleted()
      ensures SelectedCurrencySymbol() == DefaultCurrency
      ensures IsVibrationEnabled() && IsAppLockEnabled()
      ensures SecurityQuestion1() == None && SecurityAnswer1() == None
    {
    }

    /** A boolean setter: the setting reads back as written and nothing else changes. */
    method PutBoolean(key: string, value: bool)
      requires Valid()
      modifies this
      ensures Valid()
      ensures bools == old(bools)[key := value] && strings == old(strings)
      ensures currencySymbol == old(currencySymbol)
      ensures BoolOr(bools, key, !value) == value
    {
      bools := bools[key := value];
    }

    /** A nullable string setter other than the currency's. */
    method PutNullableString(key: string, value: Option<string>)
      requires Valid() && key != CurrencyKey
      modifies this
      ensures Valid()
      ensures strings == PutString(old(strings), key, value) && bools == old(bools)
      ensures currencySymbol == old(currencySymbol)
      ensures StringOpt(strings, key) == value
    {
      strings := PutString(strings, key, value);
    }

    method SetSetupDone(value: bool)
      requires Valid()
      modifies this
      ensures Valid() && IsSetupDone() == value
      ensures bools == old(bools)[SetupDoneKey := value] && strings == old(strings)
    {
      PutBoolean(SetupDoneKey, value);
    }

    method SetPinCode(value: Option<string>)
      requires Valid()
      modifies this
      ensures Valid() && PinCode() == value
      ensures strings == PutString(old(strings), PinCodeKey, value) && bools == old(bools)
    {
      PutNullableString(PinCodeKey, value);
    }

    method SetBiometricEnabled(value: bool)
      requires Valid()
      modifies this
      ensures Valid() && IsBiometricEnabled() == value
      ensures bools == old(bools)[BiometricKey := value] && strings == old(strings)
    {
      PutBoolean(BiometricKey, value);
    }

    method SetTutorialCompleted(value: bool)
      requires Valid()
      modifies this
      ensures Valid() && IsTutorialCompleted() == value
      ensures bools == old(bools)[TutorialKey := value] && strings == old(strings)
    {
      PutBoolean(TutorialKey, value);
    }

    /** Writes the symbol and publishes it on the `currencySymbol` flow. */
    method SetSelectedCurrencySymbol(value: string)
      requires Valid()
      modifies this
      ensures Valid()
      ensures SelectedCurrencySymbol() == value && currencySymbol == value
      ensures strings == old(strings)[CurrencyKey := value] && bools == old(bools)
    {
      strings := strings[CurrencyKey := value];
      currencySymbol := value;
    }

    method SetVibrationEnabled(value: bool)
      requires Valid()
      modifies this
      ensures Valid() && IsVibrationEnabled() == value
      ensures bools == old(bools)[VibrationKey := value] && strings == old(strings)
    {
      PutBoolean(VibrationKey, value);
    }

    method SetAppLockEnabled(value: bool)
      requires Valid()
      modifies this
      ensures Valid() && IsAppLockEnabled() == value
      ensures bools == old(bools)[AppLockKey := value] && strings == old(strings)
    {
      PutBoolean(AppLockKey, value);
    }

    method SetSecurityQuestion1(value: Option<string>)
      requires Valid()
      modifies this
      ensures Valid() && SecurityQuestion1() == value
      ensures strings == PutString(old(strings), QuestionKey, value) && bools == old(bools)
    {
      PutNullableString(QuestionKey, value);
    }

    method SetSecurityAnswer1(value: Option<string>)
      requires Valid()
      modifies this
      ensures Valid() && SecurityAnswer1() == value
      ensures strings == PutString(old(strings), AnswerKey, value) && bools == old(bools)
    {
      PutNullableString(AnswerKey, value);
    }
  }
}
