/**
 * The URL syntax check of Backend/utils/validateUrl.js: the anchored regular
 * expression `^(ftp|http|https)://[^ "]+$`, tested without flags (so the
 * scheme match is case-sensitive and `$` means the end of the input).
 */
module UrlValidation {
  import opened Wrappers

  /** The alternatives of the scheme group, in the order the regex lists them. */
  const Schemes: seq<string> := ["ftp", "http", "https"]

  const Separator := "://"

  /** A character admitted by the class `[^ "]`. */
  predicate TailChar(c: char) {
    c != ' ' && c != '"'
  }

  /** `[^ "]+$`: one or more admitted characters, up to the end of the input. */
  predicate ValidTail(t: string) {
    |t| > 0 && forall i :: 0 <= i < |t| ==> TailChar(t[i])
  }

  /** What the regex accepts, read declaratively: a scheme, `://`, a valid tail. */
  ghost predicate MatchesPattern(url: string) {
    exists k, t :: 0 <= k < |Schemes| && url == Schemes[k] + Separator + t && ValidTail(t)
  }

  /** The text after `<scheme>://`, when the input starts with one of the schemes. */
  function AfterScheme(url: string): (rest: Option<string>)
    ensures rest.Some? ==> |rest.value| < |url|
  {
    if "ftp://" <= url then Some(url[6..])
    else if "http://" <= url then Some(url[7..])
    else if "https://" <= url then Some(url[8..])
    else None
  }

  /** validateUrl(url) */
  function ValidateUrl(url: string): (ok: bool)
    ensures ok ==> |url| > 0 && (url[0] == 'f' || url[0] == 'h')
    ensures ok ==> forall i :: 0 <= i < |url| ==> TailChar(url[i])
  {
    match AfterScheme(url)
    case Some(t) => ValidTail(t)
    case None => false
  }

  /** The check accepts exactly the strings of the form scheme + "://" + non-empty tail. */
  lemma {:induction false} ValidateUrlMatchesPattern(url: string)
    ensures ValidateUrl(url) <==> MatchesPattern(url)
  {
    if ValidateUrl(url) {
      var t := AfterScheme(url).value;
      if "ftp://" <= url {
        assert url == Schemes[0] + Separator + t;
      } else if "http://" <= url {
        assert url == Schemes[1] + Separator + t;
      } else {
        assert url == Schemes[2] + Separator + t;
      }
    }
    if MatchesPattern(url) {
      var k, t :| 0 <= k < |Schemes| && url == Schemes[k] + Separator + t && ValidTail(t);
      var p := Schemes[k] + Separator;
      assert url == p + t;
      assert p <= url;
      if k == 0 {
        assert AfterScheme(url) == Some(t);
      } else if k == 1 {
        assert !("ftp://" <= url) by { assert url[0] == 'h'; }
        assert AfterScheme(url) == Some(t);
      } else {
        assert !("ftp://" <= url) by { assert url[0] == 'h'; }
        assert !("http://" <= url) by { assert url[4] == 's'; }
        assert AfterScheme(url) == Some(t);
      }
    }
  }

  /** A space or a double quote anywhere in the input makes the check fail. */
  lemma {:induction false} RejectsSpaceOrQuote(url: string, i: nat)
    requires i < |url| && !TailChar(url[i])
    ensures !ValidateUrl(url)
  {
  }

  /** The check accepts only inputs whose first letter is a lower-case `f` or `h`: `HTTP://x`, `example.com` and `mailto:x` all fail. */
  lemma NeedsLowerCaseScheme(url: string)
    requires url == [] || (url[0] != 'f' && url[0] != 'h')
    ensures !ValidateUrl(url)
  {
  }

  /** A scheme with nothing after it is rejected. */
  lemma {:induction false} RejectsBareScheme(k: nat)
    requires k < |Schemes|
    ensures !ValidateUrl(Schemes[k] + Separator)
  {
    var url := Schemes[k] + Separator;
    if k == 0 {
      assert url == "ftp://";
      assert AfterScheme(url) == Some("");
    } else if k == 1 {
      assert url == "http://";
      assert !("ftp://" <= url) by { assert url[0] == 'h'; }
      assert AfterScheme(url) == Some("");
    } else {
      assert url == "https://";
      assert !("ftp://" <= url) by { assert url[0] == 'h'; }
      assert !("http://" <= url) by { assert url[4] == 's'; }
      assert AfterScheme(url) == Some("");
    }
  }

  /** Any of the three schemes followed by `://` and a valid tail is accepted. */
  lemma {:induction false} AcceptsSchemeAndTail(k: nat, t: string)
    requires k < |Schemes| && ValidTail(t)
    ensures ValidateUrl(Schemes[k] + Separator + t)
  {
    ValidateUrlMatchesPattern(Schemes[k] + Separator + t);
  }

  /** Sample inputs the regex accepts. */
  lemma AcceptExamples()
    ensures ValidateUrl("http://example.com")
    ensures ValidateUrl("ftp://x")
  {
    AcceptsSchemeAndTail(1, "example.com");
    AcceptsSchemeAndTail(0, "x");
  }

  /** Sample inputs the regex rejects: an upper-case scheme, no scheme, another scheme. */
  lemma RejectExamples()
    ensures !ValidateUrl("HTTP://example.com")
    ensures !ValidateUrl("example.com")
    ensures !ValidateUrl("mailto:x")
  {
    NeedsLowerCaseScheme("HTTP://example.com");
    NeedsLowerCaseScheme("example.com");
    NeedsLowerCaseScheme("mailto:x");
  }

  /** A space inside an otherwise valid URL is rejected. */
  lemma RejectsEmbeddedSpace()
    ensures !ValidateUrl("http://a b")
  {
    RejectsSpaceOrQuote("http://a b", 8);
  }
}
