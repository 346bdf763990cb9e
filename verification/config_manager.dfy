/**
 * The desktop GUI's settings (internal/gui/config_manager.go): the default
 * values, the form that edits them and the parse-or-keep rule applied when
 * the form is saved. Reading and writing the JSON file are I/O: what the
 * file holds arrives as a parameter and a save records what would be written. The
 * floating-point filter factor is not part of this model.
 */
module GuiConfig {
  import opened Wrappers
  import opened Strconv

  datatype Config = Config(
    twoFingerKey: int,
    fourFingerKey: int,
    warmUpCount: int,
    mouseDeltaFactor: int,
    preferredKeyboard: string,
    preferredMouse: string,
    resetThresholdMs: int)

  /** DefaultConfig. */
  const DefaultConfig: Config := Config(184, 183, 10, 15, "", "", 50)

  /** The texts of the five entry fields of the settings form. */
  datatype Form = Form(twoFingerKey: string, fourFingerKey: string, warmUpCount: string, mouseDeltaFactor: string,
                       resetThreshold: string)

  /** What CreateConfigPanel puts in the entries. */
  function FormOf(c: Config): Form {
    Form(Itoa(c.twoFingerKey), Itoa(c.fourFingerKey), Itoa(c.warmUpCount), Itoa(c.mouseDeltaFactor), Itoa(c.resetThresholdMs))
  }

  /** An entry's new value: the parsed text, or the old value when the text does not parse. */
  function ParseOrKeep(text: string, previous: int): (v: int)
    ensures Atoi(text).Some? ==> v == Atoi(text).value
    ensures Atoi(text).None? ==> v == previous
  {
    match Atoi(text)
    case Some(n) => n
    case None => previous
  }

  /** Every int field of c fits the 64-bit int. */
  predicate FitsInt(c: Config) {
    IntMin <= c.twoFingerKey <= IntMax && IntMin <= c.fourFingerKey <= IntMax && IntMin <= c.warmUpCount <= IntMax &&
    IntMin <= c.mouseDeltaFactor <= IntMax && IntMin <= c.resetThresholdMs <= IntMax
  }

  /**
   * What LoadConfig finds: no settings file yet (and whether writing the
   * defaults to it succeeds), a file it cannot use, or the settings decoded
   * from the file over the defaults.
   */
  datatype Stored = NoFile(writeOk: bool) | Unusable | Decoded(c: Config)

  class ConfigManager {
    var config: Config
    /** The configuration most recently written to the settings file, if any. */
    var saved: Option<Config>

    /**
     * NewConfigManager followed by LoadConfig. A missing settings file is
     * created by saving the defaults; an unusable one (no directory, a read
     * error, JSON that does not decode) leaves the defaults in use.
     */
    constructor (stored: Stored)
      ensures config == if stored.Decoded? then stored.c else DefaultConfig
      ensures saved == if stored.NoFile? && stored.writeOk then Some(DefaultConfig) else None
    {
      config := DefaultConfig;
      saved := None;
      new;
      if stored.NoFile? {
        var written := SaveConfig(stored.writeOk);
      } else if stored.Decoded? {
        config := stored.c;
      }
    }

    /** GetConfig returns a copy: the caller cannot change the manager's configuration through it. */
    function GetConfig(): Config
      reads this
    {
      config
    }

    /** SaveConfig: writes the current configuration when the write succeeds. */
    method SaveConfig(writeOk: bool) returns (ok: bool)
      modifies this`saved
      ensures ok == writeOk
      ensures saved == if writeOk then Some(config) else old(saved)
    {
      if writeOk {
        saved := Some(config);
      }
      ok := writeOk;
    }

    /**
     * UpdateConfigFromUI: each entry whose text parses sets its field; an
     * entry that does not parse leaves its field alone; the preferred
     * devices are never touched.
     */
    method UpdateConfigFromUI(form: Form)
      modifies this`config
      ensures config.twoFingerKey == ParseOrKeep(form.twoFingerKey, old(config).twoFingerKey)
      ensures config.fourFingerKey == ParseOrKeep(form.fourFingerKey, old(config).fourFingerKey)
      ensures config.warmUpCount == ParseOrKeep(form.warmUpCount, old(config).warmUpCount)
      ensures config.mouseDeltaFactor == ParseOrKeep(form.mouseDeltaFactor, old(config).mouseDeltaFactor)
      ensures config.resetThresholdMs == ParseOrKeep(form.resetThreshold, old(config).resetThresholdMs)
      ensures config.preferredKeyboard == old(config).preferredKeyboard
      ensures config.preferredMouse == old(config).preferredMouse
    {
      var v := Atoi(form.twoFingerKey);
      if v.Some? {
        config := config.(twoFingerKey := v.value);
      }
      v := Atoi(form.fourFingerKey);
      if v.Some? {
        config := config.(fourFingerKey := v.value);
      }
      v := Atoi(form.warmUpCount);
      if v.Some? {
        config := config.(warmUpCount := v.value);
      }
      v := Atoi(form.mouseDeltaFactor);
      if v.Some? {
        config := config.(mouseDeltaFactor := v.value);
      }
      v := Atoi(form.resetThreshold);
      if v.Some? {
        config := config.(resetThresholdMs := v.value);
      }
    }
  }

  /** Saving the form as the panel first fills it changes no field. */
  lemma UntouchedFormKeepsConfig(c: Config)
    requires FitsInt(c)
    ensures ParseOrKeep(FormOf(c).twoFingerKey, c.twoFingerKey) == c.twoFingerKey
    ensures ParseOrKeep(FormOf(c).fourFingerKey, c.fourFingerKey) == c.fourFingerKey
    ensures ParseOrKeep(FormOf(c).warmUpCount, c.warmUpCount) == c.warmUpCount
    ensures ParseOrKeep(FormOf(c).mouseDeltaFactor, c.mouseDeltaFactor) == c.mouseDeltaFactor
    ensures ParseOrKeep(FormOf(c).resetThreshold, c.resetThresholdMs) == c.resetThresholdMs
  {
    AtoiItoa(c.twoFingerKey);
    AtoiItoa(c.fourFingerKey);
    AtoiItoa(c.warmUpCount);
    AtoiItoa(c.mouseDeltaFactor);
    AtoiItoa(c.resetThresholdMs);
  }

  /** An entry edited to the text of another number takes that number, whatever it held before. */
  lemma EditedEntryTakesValue(n: int, previous: int)
    requires IntMin <= n <= IntMax
    ensures ParseOrKeep(Itoa(n), previous) == n
  {
    AtoiItoa(n);
  }
}
