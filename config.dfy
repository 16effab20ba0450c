/** The gateway address the client talks to: how an entered base URL is
    normalised on first run, and how the URL follows the machine's IP address. */
module Config {

  import opened Values
  import opened Text

  const HttpScheme := "http://"
  const HttpsScheme := "https://"

  predicate HasScheme(url: string)
  {
    StartsWith(url, HttpScheme) || StartsWith(url, HttpsScheme)
  }

  predicate IsSlash(c: char)
  {
    c == '/'
  }

  /** The URL offered when the operator enters nothing: the detected IP on port 8080. */
  function SuggestedUrl(localIp: string): string
  {
    HttpScheme + localIp + ":8080"
  }

  /** Scheme prefix the entered URL gets: none when it already has one. */
  function WithScheme(url: string): (r: string)
    ensures HasScheme(url) ==> r == url
    ensures !HasScheme(url) ==> r == HttpScheme + url
    ensures StartsWith(r, "http:") || StartsWith(r, "https:")
  {
    if HasScheme(url) then
      assert url[..|HttpScheme|] == HttpScheme || url[..|HttpsScheme|] == HttpsScheme;
      url
    else HttpScheme + url
  }

  /** The base URL stored from the operator's (already trimmed) answer: the
      suggestion when the answer is empty, `http://` prepended when it names no
      scheme, and trailing slashes removed. */
  function NormaliseBaseUrl(entered: string, localIp: string): (url: string)
    ensures |url| >= 5 && url[|url| - 1] != '/'
    ensures StartsWith(url, "http:") || StartsWith(url, "https:")
    ensures var full := WithScheme(if entered == "" then SuggestedUrl(localIp) else entered);
            StartsWith(full, url) && forall i :: |url| <= i < |full| ==> full[i] == '/'
  {
    var chosen := if entered == "" then SuggestedUrl(localIp) else entered;
    var full := WithScheme(chosen);
    var url := TrimEnd(full, IsSlash);
    assert StartsWith(full, "http:") ==> full[4] == full[..5][4] == ':';
    assert StartsWith(full, "https:") ==> full[5] == full[..6][5] == ':';
    assert url == full[..|url|];
    url
  }

  /** A stored URL with a scheme and no trailing slash normalises to itself. (A
      URL that is only a scheme is not in that form: "http://" is stored as
      "http:".) */
  lemma NormaliseStable(url: string, localIp: string)
    requires HasScheme(url) && url[|url| - 1] != '/'
    ensures NormaliseBaseUrl(url, localIp) == url
  {
    assert url != "" by {
      assert StartsWith(url, HttpScheme) ==> |url| >= 7;
      assert StartsWith(url, HttpsScheme) ==> |url| >= 8;
    }
    assert WithScheme(url) == url;
  }

  /** An answer without a scheme or trailing slash is stored behind "http://". */
  lemma NormaliseSchemeless(entered: string, localIp: string)
    requires entered != "" && !HasScheme(entered) && entered[|entered| - 1] != '/'
    ensures NormaliseBaseUrl(entered, localIp) == HttpScheme + entered
  {
    var full := HttpScheme + entered;
    assert full[|full| - 1] == entered[|entered| - 1];
    assert TrimEnd(full, IsSlash) == full;
  }

  /** An empty answer stores exactly the suggested URL. */
  lemma NormaliseEmpty(localIp: string)
    ensures NormaliseBaseUrl("", localIp) == SuggestedUrl(localIp)
  {
    var s := SuggestedUrl(localIp);
    assert s[..|HttpScheme|] == HttpScheme;
    assert WithScheme(s) == s;
    assert s[|s| - 1] == '0';
  }

  /** The configuration fields the IP check reads and writes. */
  datatype GatewayConfig = GatewayConfig(baseUrl: string, lastDetectedIp: Option<string>)

  /** The configuration after the check, and whether it was written to disk. */
  datatype IpCheck = IpCheck(config: GatewayConfig, saved: bool)

  /** A remembered IP is on record and the machine now has another one. */
  predicate Moved(cfg: GatewayConfig, localIp: string)
  {
    cfg.lastDetectedIp.Some? && cfg.lastDetectedIp.value != "" && cfg.lastDetectedIp.value != localIp
  }

  /** The start-up IP check. A remembered IP that differs from the current one
      is replaced in the URL when it occurs there and the operator accepts; when
      it does not occur there only the remembered IP is updated. A missing (or
      empty) remembered IP is simply recorded. */
  function CheckIpChange(cfg: GatewayConfig, localIp: string, accept: bool): (r: IpCheck)
    ensures r.saved <==>
              || cfg.lastDetectedIp.None? || cfg.lastDetectedIp.value == ""
              || (Moved(cfg, localIp) && (accept || !Contains(cfg.baseUrl, cfg.lastDetectedIp.value)))
    ensures Moved(cfg, localIp) && Contains(cfg.baseUrl, cfg.lastDetectedIp.value) && accept ==>
              r == IpCheck(GatewayConfig(Replace(cfg.baseUrl, cfg.lastDetectedIp.value, localIp), Some(localIp)), true)
    ensures !r.saved ==> r.config == cfg
    ensures r.saved ==> r.config.lastDetectedIp == Some(localIp)
    ensures r.config.baseUrl != cfg.baseUrl ==>
              cfg.lastDetectedIp.Some? && cfg.lastDetectedIp.value != "" &&
              Contains(cfg.baseUrl, cfg.lastDetectedIp.value) && accept &&
              r.config.baseUrl == Replace(cfg.baseUrl, cfg.lastDetectedIp.value, localIp)
  {
    match cfg.lastDetectedIp
    case Some(savedIp) =>
      if savedIp != "" && savedIp != localIp then
        if Contains(cfg.baseUrl, savedIp) then
          if accept then
            var url := Replace(cfg.baseUrl, savedIp, localIp);
            IpCheck(GatewayConfig(url, Some(localIp)), true)
          else IpCheck(cfg, false)
        else IpCheck(cfg.(lastDetectedIp := Some(localIp)), true)
      else if savedIp == "" then IpCheck(cfg.(lastDetectedIp := Some(localIp)), true)
      else IpCheck(cfg, false)
    case None => IpCheck(cfg.(lastDetectedIp := Some(localIp)), true)
  }

  /** Once the check has written the configuration, the next start-up on the same
      machine finds nothing to do, whatever the operator would answer. */
  lemma IpCheckSettles(cfg: GatewayConfig, localIp: string, accept: bool, accept2: bool)
    requires localIp != ""
    requires CheckIpChange(cfg, localIp, accept).saved
    ensures CheckIpChange(CheckIpChange(cfg, localIp, accept).config, localIp, accept2)
            == IpCheck(CheckIpChange(cfg, localIp, accept).config, false)
  {
  }

  /** Dotted-decimal text such as "192.168.0.7". */
  predicate IsDottedIp(ip: string)
  {
    && ip != [] && '0' <= ip[0] <= '9'
    && (forall i :: 0 <= i < |ip| ==> ip[i] == '.' || '0' <= ip[i] <= '9')
    && (exists i :: 0 <= i < |ip| && ip[i] == '.')
  }

  /** A URL built from the suggested form follows the machine to its new IP. */
  lemma SuggestedUrlFollowsIp(oldIp: string, newIp: string)
    requires IsDottedIp(oldIp) && oldIp != newIp
    ensures CheckIpChange(GatewayConfig(SuggestedUrl(oldIp), Some(oldIp)), newIp, true)
            == IpCheck(GatewayConfig(SuggestedUrl(newIp), Some(newIp)), true)
  {
    var url := SuggestedUrl(oldIp);
    var port := ":8080";
    forall j | 0 <= j < |HttpScheme| ensures !OccursAt(url, oldIp, j) {
      assert url[j] == HttpScheme[j] && !('0' <= url[j] <= '9');
      assert j + |oldIp| <= |url| ==> url[j..j + |oldIp|][0] == url[j];
    }
    var d :| 0 <= d < |oldIp| && oldIp[d] == '.';
    forall j: nat ensures !OccursAt(port, oldIp, j) {
      assert j + |oldIp| <= |port| ==> port[j..j + |oldIp|][d] == port[j + d] != '.';
    }
    assert OccursAt(url, oldIp, |HttpScheme|) by {
      assert url[|HttpScheme|..|HttpScheme| + |oldIp|] == oldIp;
    }
    ReplaceSingle(url, HttpScheme, oldIp, port, newIp);
  }

  /** The configuration written on first run: the normalised answer and the IP
      it was suggested for. */
  function FirstRunConfig(entered: string, localIp: string): (cfg: GatewayConfig)
    ensures cfg.lastDetectedIp == Some(localIp)
    ensures entered == "" ==> cfg.baseUrl == SuggestedUrl(localIp)
    ensures HasScheme(entered) && entered[|entered| - 1] != '/' ==> cfg.baseUrl == entered
    ensures entered != "" && !HasScheme(entered) && entered[|entered| - 1] != '/' ==>
              cfg.baseUrl == HttpScheme + entered
  {
    NormaliseEmpty(localIp);
    assert entered != "" && !HasScheme(entered) && entered[|entered| - 1] != '/' ==>
             NormaliseBaseUrl(entered, localIp) == HttpScheme + entered by {
      if entered != "" && !HasScheme(entered) && entered[|entered| - 1] != '/' {
        NormaliseSchemeless(entered, localIp);
      }
    }
    var url := NormaliseBaseUrl(entered, localIp);
    assert HasScheme(entered) && entered[|entered| - 1] != '/' ==> url == entered by {
      if HasScheme(entered) && entered[|entered| - 1] != '/' {
        NormaliseStable(entered, localIp);
      }
    }
    GatewayConfig(url, Some(localIp))
  }

  /** Starting again on the machine that wrote the first-run configuration asks
      nothing and writes nothing. */
  lemma FirstRunNeedsNoIpCheck(entered: string, localIp: string, accept: bool)
    ensures CheckIpChange(FirstRunConfig(entered, localIp), localIp, accept)
            == IpCheck(FirstRunConfig(entered, localIp), localIp == "")
  {
  }
}
