/**
 * CountryHelper: chooses the store country between the caller's explicit code and
 * the device locale's region, and lowercases it.
 */
module Country {
  import opened Basics
  import opened Text
  import opened ManagerOptions

  datatype CountryHelper = CountryHelper(country: Option<string>, options: Option<AppVersionManagerOptions>) {

    /** Without options the explicit country is forced. */
    predicate Forced() {
      options.None? || options.value.forceCountry
    }

    predicate HasExplicitCountry() {
      country.Some? && country.value != []
    }

    /** `getCountryCodeFromLocale()`; `regionCode` stands for `Locale.current.regionCode`. */
    function CountryCodeFromLocale(regionCode: Option<string>): (r: Option<string>)
      ensures r.Some? <==> regionCode.Some?
      ensures r.Some? ==> r.value == Lowercased(regionCode.value)
    {
      match regionCode
      case Some(code) => Some(Lowercased(code))
      case None => None
    }

    /** `countryCode`. */
    function CountryCode(regionCode: Option<string>): (r: Option<string>)
      ensures Forced() && HasExplicitCountry() ==> r == Some(Lowercased(country.value))
      ensures Forced() && !HasExplicitCountry() ==> r == CountryCodeFromLocale(regionCode)
      ensures !Forced() && regionCode.Some? ==> r == Some(Lowercased(regionCode.value))
      ensures !Forced() && regionCode.None? && HasExplicitCountry() ==> r == Some(Lowercased(country.value))
      ensures !Forced() && regionCode.None? && !HasExplicitCountry() ==> r.None?
      ensures r.Some? ==> IsLowercase(r.value)
    {
      if Forced() then
        if HasExplicitCountry() then Some(Lowercased(country.value))
        else CountryCodeFromLocale(regionCode)
      else
        match CountryCodeFromLocale(regionCode)
        case Some(localeCountry) => Some(localeCountry)
        case None =>
          if HasExplicitCountry() then Some(Lowercased(country.value))
          else None
    }
  }

  /** The result is nil only when neither source supplies anything usable. */
  lemma NilOnlyWithoutSources(helper: CountryHelper, regionCode: Option<string>)
    ensures helper.CountryCode(regionCode).None? <==> regionCode.None? && !helper.HasExplicitCountry()
  {
  }
}
