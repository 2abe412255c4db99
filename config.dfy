/**
 * The plugin's settings (`Configuration` and `UploadUrl`): the list of upload endpoints,
 * filled with the two default endpoints the first time it is found empty.
 */
module Config {
  /** An endpoint's three settings, as a value. */
  datatype UrlSettings = UrlSettings(url: string, isDefault: bool, isEnabled: bool)

  class UploadUrl {
    var url: string
    var isDefault: bool
    var isEnabled: bool

    function Settings(): UrlSettings
      reads this
    {
      UrlSettings(url, isDefault, isEnabled)
    }

    /** A new endpoint is enabled and not a default one. */
    constructor(url: string)
      ensures Settings() == UrlSettings(url, false, true)
    {
      this.url := url;
      isDefault := false;
      isEnabled := true;
    }

    /** `Clone`: a new object with the same three settings. */
    method Clone() returns (c: UploadUrl)
      ensures fresh(c)
      ensures c.Settings() == Settings()
    {
      c := new UploadUrl(url);
      c.isDefault := isDefault;
      c.isEnabled := isEnabled;
    }

    method SetEnabled(enabled: bool)
      modifies this
      ensures Settings() == old(Settings()).(isEnabled := enabled)
    {
      isEnabled := enabled;
    }

    method SetDefault(default: bool)
      modifies this
      ensures Settings() == old(Settings()).(isDefault := default)
    {
      isDefault := default;
    }
  }

  /** The settings of a list of endpoints, in order. */
  function AllSettings(urls: seq<UploadUrl>): (r: seq<UrlSettings>)
    reads urls
    ensures |r| == |urls|
    ensures forall i :: 0 <= i < |urls| ==> r[i] == urls[i].Settings()
  {
    if |urls| == 0 then [] else AllSettings(urls[..|urls| - 1]) + [urls[|urls| - 1].Settings()]
  }

  lemma AllSettingsPair(a: UploadUrl, b: UploadUrl)
    ensures AllSettings([a, b]) == [a.Settings(), b.Settings()]
  {
    assert [a, b][..1] == [a];
  }

  const XivPf := "https://xivpf.com/contribute/multiple"
  const FindingWay := "https://findingway.io/receiver"

  /** The endpoints `Initialize` leaves: the list itself, or the two defaults when it is empty. */
  function Initialized(urls: seq<UrlSettings>): (r: seq<UrlSettings>)
    ensures |r| > 0
    ensures |urls| > 0 ==> r == urls
  {
    if |urls| != 0 then urls
    else [UrlSettings(XivPf, true, true), UrlSettings(FindingWay, true, true)]
  }

  /** A second `Initialize` changes nothing. */
  lemma InitializeIdempotent(urls: seq<UrlSettings>)
    ensures Initialized(Initialized(urls)) == Initialized(urls)
  {
  }

  /** On an empty list: exactly the two defaults, both enabled and marked default, xivpf first. */
  lemma InitializeDefaults()
    ensures |Initialized([])| == 2
    ensures Initialized([])[0].url == XivPf && Initialized([])[1].url == FindingWay
    ensures forall i :: 0 <= i < 2 ==> Initialized([])[i].isDefault && Initialized([])[i].isEnabled
  {
  }

  class Configuration {
    var version: int
    var advancedSettingsEnabled: bool
    var uploadUrls: seq<UploadUrl>

    /** The field defaults: version 1, advanced settings off, no endpoints. */
    constructor()
      ensures version == 1 && !advancedSettingsEnabled && uploadUrls == []
    {
      version := 1;
      advancedSettingsEnabled := false;
      uploadUrls := [];
    }

    /** `Initialize`: add the two default endpoints when the list is empty. */
    method Initialize()
      modifies this
      ensures AllSettings(uploadUrls) == Initialized(old(AllSettings(uploadUrls)))
      ensures old(uploadUrls) != [] ==> uploadUrls == old(uploadUrls)
      ensures old(uploadUrls) == [] ==> fresh(uploadUrls[0]) && fresh(uploadUrls[1])
      ensures version == old(version) && advancedSettingsEnabled == old(advancedSettingsEnabled)
    {
      if |uploadUrls| != 0 {
        return;
      }
      var first := new UploadUrl(XivPf);
      first.isDefault := true;
      var second := new UploadUrl(FindingWay);
      second.isDefault := true;
      uploadUrls := [first, second];
      AllSettingsPair(first, second);
    }
  }
}
