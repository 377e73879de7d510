/** The options both payment pages hand to the embedded payment form, and
    the iframe URL built from them. Serialising the options (`JSON.stringify`
    then `btoa`) is not modelled: callers pass the encoder as a function. */
module PaymentOptions {
  import opened Text

  /** The two entries of the options object that vary; the style entries
      are constants and are left out. */
  datatype CheckoutOptions = CheckoutOptions(headlineText: string, submitButtonText: string)

  /** The texts for updating a card on file versus adding the first one. */
  function OptionsFor(updating: bool): CheckoutOptions {
    if updating then CheckoutOptions("Update Your Payment Method", "Update")
    else CheckoutOptions("Add Your Payment Method", "Add Payment")
  }

  /** `${embedUrl}?options=${encoded}` */
  function EmbedUrl(embedUrl: string, encoded: string): string {
    embedUrl + "?options=" + encoded
  }

  /** The two modes never show the same form. */
  lemma OptionsDistinguishModes(updating: bool)
    ensures OptionsFor(updating) != OptionsFor(!updating)
    ensures OptionsFor(updating).headlineText != OptionsFor(!updating).headlineText
    ensures OptionsFor(updating).submitButtonText != OptionsFor(!updating).submitButtonText
  {
  }

  /** The URL is never empty, so it is always truthy where the pages test it. */
  lemma EmbedUrlNonEmpty(embedUrl: string, encoded: string)
    ensures |EmbedUrl(embedUrl, encoded)| >= 9
  {
  }

  /** The iframe URL splits back, at '?', into the embed URL and the options
      query, as long as neither part holds a '?' (the base64 alphabet has none). */
  lemma EmbedUrlRoundTrip(embedUrl: string, encoded: string)
    requires '?' !in embedUrl && '?' !in encoded
    ensures SplitOn(EmbedUrl(embedUrl, encoded), '?') == [embedUrl, "options=" + encoded]
  {
    var query := "options=" + encoded;
    assert '?' !in query by {
      forall k | 0 <= k < |query| ensures query[k] != '?' {
        if k >= 8 {
          assert query[k] == encoded[k - 8];
        }
      }
    }
    var url := EmbedUrl(embedUrl, encoded);
    assert url == Join([embedUrl, query], "?") by {
      var l := embedUrl + "?options=" + encoded;
      var r := embedUrl + "?" + query;
      assert |l| == |r|;
      forall k | 0 <= k < |l| ensures l[k] == r[k] {
        if k < |embedUrl| {
          assert l[k] == embedUrl[k] && r[k] == embedUrl[k];
        } else if k < |embedUrl| + 9 {
          assert l[k] == "?options="[k - |embedUrl|];
        } else {
          assert l[k] == encoded[k - |embedUrl| - 9] && r[k] == encoded[k - |embedUrl| - 9];
        }
      }
    }
    SplitOnJoin([embedUrl, query], '?');
  }
}
