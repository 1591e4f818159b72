/**
  The interface-language switch of language_manager.py (class
  LanguageManager): a current language that is always one of the translated
  ones, a guarded setter, and a text lookup that falls back to the key itself.
 */
module Languages {
  import opened Wrappers
  import opened Translations

  /**
    `translations.get(language, {}).get(key, key)`: the text of `key` in
    `language`, or the key itself when either is missing.
   */
  function Lookup(translations: map<string, map<string, string>>, language: string, key: string): (r: string)
    ensures language in translations && key in translations[language] ==> r == translations[language][key]
    ensures !(language in translations && key in translations[language]) ==> r == key
  {
    var table := if language in translations then translations[language] else map[];
    if key in table then table[key] else key
  }

  class LanguageManager {
    var currentLanguage: string
    const translations: map<string, map<string, string>>

    /** The current language is always one the manager has texts for. */
    ghost predicate Valid()
      reads this
    {
      currentLanguage in translations
    }

    /** English is the default; the tables are the fixed ones. */
    constructor ()
      ensures Valid()
      ensures currentLanguage == "en" && translations == LoadTranslations()
    {
      currentLanguage := "en";
      translations := LoadTranslations();
    }

    /** `set_language`: accepts, and switches to, exactly the codes that have a table. */
    method SetLanguage(languageCode: string) returns (ok: bool)
      requires Valid()
      modifies this`currentLanguage
      ensures Valid()
      ensures ok <==> languageCode in translations
      ensures currentLanguage == if ok then languageCode else old(currentLanguage)
    {
      if languageCode in translations {
        currentLanguage := languageCode;
        return true;
      }
      return false;
    }

    /**
      `get_text`: the current language's text for `key` (the key itself when
      it has none). With arguments, `format` stands for Python's `str.format`,
      and a failed format (`None`) gives the unformatted text.
     */
    function GetText<A>(key: string, args: seq<A>, format: (string, seq<A>) -> Option<string>): (r: string)
      reads this
      ensures args == [] ==> r == Lookup(translations, currentLanguage, key)
      ensures args != [] ==>
                r == format(Lookup(translations, currentLanguage, key), args).GetOr(Lookup(translations, currentLanguage, key))
    {
      var translation := Lookup(translations, currentLanguage, key);
      if args != [] then
        match format(translation, args)
        case Some(text) => text
        case None => translation
      else translation
    }

    /** `get_available_languages`: language code -> its name in that language. */
    function GetAvailableLanguages(): (r: map<string, string>)
      ensures r.Keys == {"ru", "en", "de"}
    {
      map["ru" := "Русский", "en" := "English", "de" := "Deutsch"]
    }
  }

  /**
    The languages a manager offers are exactly the languages that the loaded
    translation tables cover.
   */
  lemma AvailableLanguagesAreTranslated()
    ensures LoadTranslations().Keys == {"ru", "en", "de"}
  {
  }
}
