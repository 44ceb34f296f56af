/** The translation tab's record of which language is active: one nullable
    language code, the fixed list of codes it may take, and an event fired
    whenever it changes. The language utility service is given as the list of
    voiceover language codes and the function that describes a code; the
    logger is the list of error messages it has received. */
module TranslationLanguage {
  import opened Values

  class TranslationLanguageService {
    /** The voiceover language codes, read once when the service is built. */
    const allAudioLanguageCodes: seq<string>
    /** The language utility service's description of a language code. */
    const describe: string -> string

    var activeLanguageCode: Option<string>
    /** How many times the language-changed event has been emitted. */
    var changeEvents: nat
    /** The error messages sent to the logger. */
    var errorLog: seq<string>

    /** The active code, when there is one, is one of the allowed codes. */
    ghost predicate Valid()
      reads this
    {
      activeLanguageCode.Some? ==> activeLanguageCode.value in allAudioLanguageCodes
    }

    constructor (voiceoverLanguageCodes: seq<string>, audioLanguageDescription: string -> string)
      ensures Valid()
      ensures activeLanguageCode == None
      ensures allAudioLanguageCodes == voiceoverLanguageCodes && describe == audioLanguageDescription
      ensures changeEvents == 0 && errorLog == []
    {
      allAudioLanguageCodes := voiceoverLanguageCodes;
      describe := audioLanguageDescription;
      activeLanguageCode := None;
      changeEvents := 0;
      errorLog := [];
    }

    method GetActiveLanguageCode() returns (code: Option<string>)
      requires Valid()
      ensures code == activeLanguageCode
      ensures code.Some? ==> code.value in allAudioLanguageCodes
    {
      code := activeLanguageCode;
    }

    /** An allowed code becomes active and the change event fires once; any
        other code is logged as an error and changes nothing else. */
    method SetActiveLanguageCode(newActiveLanguageCode: string)
      requires Valid()
      modifies this`activeLanguageCode, this`changeEvents, this`errorLog
      ensures Valid()
      ensures newActiveLanguageCode in allAudioLanguageCodes ==>
        && activeLanguageCode == Some(newActiveLanguageCode)
        && changeEvents == old(changeEvents) + 1
        && errorLog == old(errorLog)
      ensures newActiveLanguageCode !in allAudioLanguageCodes ==>
        && activeLanguageCode == old(activeLanguageCode)
        && changeEvents == old(changeEvents)
        && errorLog == old(errorLog) + ["Invalid active language code: " + newActiveLanguageCode]
    {
      if newActiveLanguageCode !in allAudioLanguageCodes {
        errorLog := errorLog + ["Invalid active language code: " + newActiveLanguageCode];
        return;
      }
      activeLanguageCode := Some(newActiveLanguageCode);
      changeEvents := changeEvents + 1;
    }

    /** None while no code is active (an empty code counts as none);
        otherwise the description of the active code. */
    method GetActiveLanguageDescription() returns (description: Option<string>)
      ensures activeLanguageCode == None || activeLanguageCode == Some("") ==> description == None
      ensures activeLanguageCode.Some? && activeLanguageCode.value != "" ==>
                description == Some(describe(activeLanguageCode.value))
    {
      if activeLanguageCode == None || activeLanguageCode == Some("") {
        return None;
      }
      description := Some(describe(activeLanguageCode.value));
    }
  }

  /** A client of the service: the active code starts out null, an unknown
      code is refused, an allowed one is taken and announced once. */
  method SelectLanguage(codes: seq<string>, describe: string -> string, wanted: string, unknown: string)
    returns (before: Option<string>, after: Option<string>, events: nat)
    requires wanted in codes && unknown !in codes
    ensures before == None
    ensures after == Some(wanted)
    ensures events == 1
  {
    var service := new TranslationLanguageService(codes, describe);
    before := service.GetActiveLanguageCode();
    service.SetActiveLanguageCode(unknown);
    service.SetActiveLanguageCode(wanted);
    after := service.GetActiveLanguageCode();
    events := service.changeEvents;
  }
}
