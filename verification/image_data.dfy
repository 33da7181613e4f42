/**
 * `processImageData`: turns the canvas's data URL into the bare payload sent to the
 * classifier. A string that starts with "data:image/" is split on ',' and its second
 * piece kept; any other string passes through unchanged.
 */
module ImageData {
  import opened Wrappers
  import opened Text

  const ImagePrefix: string := "data:image/"

  /** The payload of `imageData`; `None` is the `undefined` that `split(',')[1]` yields without a comma. */
  function ProcessImageData(imageData: string): (r: Option<string>)
    ensures !StartsWith(imageData, ImagePrefix) ==> r == Some(imageData)
    ensures StartsWith(imageData, ImagePrefix) ==> (r.None? <==> ',' !in imageData)
    ensures StartsWith(imageData, ImagePrefix) && r.Some? ==> ',' !in r.value
  {
    if StartsWith(imageData, ImagePrefix) then
      var parts := Split(imageData, ',');
      if |parts| > 1 then Some(parts[1]) else None
    else
      Some(imageData)
  }

  /**
   * For a data URL with a comma, the payload is exactly the text between the first
   * comma and the next comma, or the end of the string.
   */
  lemma PayloadBetweenCommas(imageData: string)
    requires StartsWith(imageData, ImagePrefix) && ',' in imageData
    ensures var first := Find(imageData, ',');
            var rest := imageData[first + 1..];
            ProcessImageData(imageData) == Some(rest[..Find(rest, ',')])
  {
    SplitSecond(imageData, ',');
    var parts := Split(imageData, ',');
    assert ProcessImageData(imageData) == Some(parts[1]);
  }

  /**
   * Building a data URL from a header and a comma-free payload (what `canvas.toDataURL`
   * produces) and processing it gives the payload back.
   */
  lemma {:induction false} DataUrlRoundTrip(header: string, payload: string)
    requires StartsWith(header, ImagePrefix) && ',' !in header && ',' !in payload
    ensures ProcessImageData(header + "," + payload) == Some(payload)
  {
    var url := header + [','] + payload;
    assert StartsWith(url, ImagePrefix) by {
      assert url[..|ImagePrefix|] == header[..|ImagePrefix|];
    }
    assert Find(url, ',') == |header| by {
      FindIsFirst(url, ',', |header|);
    }
    assert url[|header| + 1..] == payload;
    assert Find(payload, ',') == |payload|;
    assert payload[..|payload|] == payload;
    PayloadBetweenCommas(url);
    assert ProcessImageData(url) == Some(payload);
    assert url == header + "," + payload;
  }

  /** `Find` returns the first position holding `c`. */
  lemma FindIsFirst(s: string, c: char, i: nat)
    requires i < |s| && s[i] == c && forall k :: 0 <= k < i ==> s[k] != c
    ensures Find(s, c) == i
  {
  }

  /** A string that starts with `prefix` holds each of its characters. */
  lemma PrefixCharOccurs(s: string, prefix: string, k: nat)
    requires k < |prefix|
    ensures StartsWith(s, prefix) ==> prefix[k] in s
  {
    if StartsWith(s, prefix) {
      assert s[k] == prefix[k];
    }
  }

  /** The data URL the drawing canvas produces for a PNG. */
  lemma PngExample()
    ensures ProcessImageData("data:image/png;base64,XYZ") == Some("XYZ")
  {
    var header, payload := "data:image/png;base64", "XYZ";
    assert StartsWith(header, ImagePrefix) by {
      assert header[..|ImagePrefix|] == ImagePrefix;
    }
    assert ',' !in header by {
      forall k | 0 <= k < |header| ensures header[k] != ',' { }
    }
    DataUrlRoundTrip(header, payload);
    assert header + "," + payload == "data:image/png;base64,XYZ";
  }

  /**
   * Processing is safe to repeat on its own output whenever the payload does not
   * itself look like a data URL; a base64 payload never contains ':'.
   */
  lemma ReprocessPayload(imageData: string, payload: string)
    requires ProcessImageData(imageData) == Some(payload) && ':' !in payload
    ensures ProcessImageData(payload) == Some(payload)
  {
    PrefixCharOccurs(payload, ImagePrefix, 4);
  }
}
