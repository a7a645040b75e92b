/**
 * How the shortener's scheme normalisation (Backend/server.js) and the URL
 * syntax check (Backend/utils/validateUrl.js) relate. The two disagree: the
 * shortener matches `https?://` without regard to case and knows no `ftp`,
 * while the check wants a lower-case `ftp`, `http` or `https` scheme.
 */
module SchemeChecks {
  import opened Wrappers
  import Shortener
  import UrlValidation

  /** The shortener keeps `HTTP://...` as it is, and validateUrl rejects what it stored. */
  lemma UpperCaseSchemeDisagreement(rest: string)
    ensures Shortener.Normalize("HTTP://" + rest) == "HTTP://" + rest
    ensures !UrlValidation.ValidateUrl(Shortener.Normalize("HTTP://" + rest))
  {
    Shortener.NormalizeKeepsUpperCaseScheme(rest);
    UrlValidation.NeedsLowerCaseScheme("HTTP://" + rest);
  }

  /** A valid `http://` or `https://` URL is stored unchanged. */
  lemma {:induction false} ValidHttpUrlStoredUnchanged(url: string)
    requires UrlValidation.ValidateUrl(url) && !("ftp://" <= url)
    ensures Shortener.Normalize(url) == url
  {
    if "http://" <= url {
      assert Shortener.StartsWithIgnoringCase(url, "http://") by {
        forall i | 0 <= i < 7 ensures Shortener.LowerAscii(url[i]) == "http://"[i] {
          assert url[i] == "http://"[i];
        }
      }
    } else {
      assert "https://" <= url;
      assert Shortener.StartsWithIgnoringCase(url, "https://") by {
        forall i | 0 <= i < 8 ensures Shortener.LowerAscii(url[i]) == "https://"[i] {
          assert url[i] == "https://"[i];
        }
      }
    }
  }

  /** A valid `ftp://` URL is not recognised as schemed: the shortener stores `http://ftp://...`. */
  lemma {:induction false} FtpUrlGetsHttpPrefix(url: string)
    requires UrlValidation.ValidateUrl(url) && "ftp://" <= url
    ensures Shortener.Normalize(url) == "http://" + url
    ensures UrlValidation.ValidateUrl(Shortener.Normalize(url))
  {
    assert !Shortener.StartsWithIgnoringCase(url, "http://") by {
      assert Shortener.LowerAscii(url[0]) == 'f';
    }
    assert !Shortener.StartsWithIgnoringCase(url, "https://") by {
      assert Shortener.LowerAscii(url[0]) == 'f';
    }
    PrefixedUrlValidIff(url);
  }

  /** When the shortener adds `http://`, the result passes validateUrl exactly when the input is a valid tail. */
  lemma {:induction false} PrefixedUrlValidIff(url: string)
    ensures UrlValidation.ValidateUrl("http://" + url) <==> UrlValidation.ValidTail(url)
  {
    var s := "http://" + url;
    assert s == UrlValidation.Schemes[1] + UrlValidation.Separator + url;
    assert !("ftp://" <= s) by { assert s[0] == 'h'; }
    assert "http://" <= s;
    assert s[7..] == url;
    assert UrlValidation.AfterScheme(s) == Some(url);
  }
}
