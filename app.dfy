/**
 * The entry screen of src/App.tsx: the state behind it (`currentView`,
 * `productId`, `showScanner`, `locationReady`), the handlers that change
 * it, and the choice of which screen is drawn. The page's address is
 * reduced to its `id` and `idw` query parameters, a decoded QR code to its
 * text and the outcome of reading it as a URL, and the geolocation request
 * to the callback that answers it.
 */
module App {
  import opened Wrappers
  import opened Text
  import ProductTracker

  /** The site a product's QR code must point at. */
  const TraceHost: string := "fipp.aciis.services"

  /** `currentView`. */
  datatype View = ScannerView | TrackerView

  /** What the component draws. */
  datatype Screen = WaitingForLocation | TrackerScreen | ScannerOverlay | EntryCard

  /** `new URL(decodedText)` either throws or yields a URL whose `id` parameter may be missing. */
  datatype ScannedUrl = NotAUrl | Url(idParam: Option<string>)

  /** A query parameter as `if (value)` sees it: present and not the empty string. */
  predicate Truthy(param: Option<string>)
  {
    param.Some? && param.value != ""
  }

  // ---------------------------------------------------------------------------
  // The product-id input
  // ---------------------------------------------------------------------------

  /** `value.replace(/[^0-9]/g, "")`. */
  function DigitsOnly(s: string): (r: string)
    ensures |r| <= |s|
    ensures forall i :: 0 <= i < |r| ==> IsDigit(r[i])
  {
    if s == [] then []
    else
      var last := s[|s| - 1];
      DigitsOnly(s[..|s| - 1]) + (if IsDigit(last) then [last] else [])
  }

  /** The sanitiser works character by character, left to right, so it keeps the digits in order. */
  lemma {:induction false} DigitsOnlyConcat(a: string, b: string)
    ensures DigitsOnly(a + b) == DigitsOnly(a) + DigitsOnly(b)
  {
    if b == [] {
      assert a + b == a;
    } else {
      var front := b[..|b| - 1];
      assert (a + b)[..|a + b| - 1] == a + front;
      assert (a + b)[|a + b| - 1] == b[|b| - 1];
      DigitsOnlyConcat(a, front);
    }
  }

  /** On one character: a digit is kept, anything else is removed. */
  lemma DigitsOnlyChar(c: char)
    ensures DigitsOnly([c]) == if IsDigit(c) then [c] else []
  {
    assert [c][..0] == [];
  }

  /** An all-digit string is left as it is. */
  lemma {:induction false} DigitsOnlyOfDigits(s: string)
    requires forall i :: 0 <= i < |s| ==> IsDigit(s[i])
    ensures DigitsOnly(s) == s
  {
    if s != [] {
      DigitsOnlyOfDigits(s[..|s| - 1]);
      assert s[..|s| - 1] + [s[|s| - 1]] == s;
    }
  }

  lemma DigitsOnlyIdempotent(s: string)
    ensures DigitsOnly(DigitsOnly(s)) == DigitsOnly(s)
  {
    DigitsOnlyOfDigits(DigitsOnly(s));
  }

  /** Every digit occurs as often in the result as in the input; nothing else occurs. */
  lemma {:induction false} DigitsOnlyCounts(s: string, c: char)
    ensures multiset(DigitsOnly(s))[c] == if IsDigit(c) then multiset(s)[c] else 0
  {
    if s != [] {
      var front, last := s[..|s| - 1], s[|s| - 1];
      DigitsOnlyCounts(front, c);
      assert s == front + [last];
      assert multiset(s) == multiset(front) + multiset([last]);
      assert multiset(DigitsOnly(s)) == multiset(DigitsOnly(front)) + multiset(if IsDigit(last) then [last] else []);
    }
  }

  // ---------------------------------------------------------------------------
  // The Track button and the scanned code
  // ---------------------------------------------------------------------------

  /** `disabled={!productId.trim()}` reversed: an id with some character that is not whitespace. */
  lemma TrackEnabledIff(productId: string)
    ensures Trim(productId) != [] <==> exists i :: 0 <= i < |productId| && !IsJsWhitespace(productId[i])
  {
    TrimEmptyIff(productId);
  }

  /** The sanitised id is empty exactly when the input holds no digit. */
  lemma {:induction false} DigitsOnlyEmptyIff(s: string)
    ensures DigitsOnly(s) == [] <==> forall i :: 0 <= i < |s| ==> !IsDigit(s[i])
  {
    if s != [] {
      var front := s[..|s| - 1];
      DigitsOnlyEmptyIff(front);
      assert forall i :: 0 <= i < |front| ==> front[i] == s[i];
    }
  }

  /** A string of digits is blank for `trim()` only when it is empty. */
  lemma DigitsNotBlank(id: string)
    requires forall i :: 0 <= i < |id| ==> IsDigit(id[i])
    ensures AllWhitespace(id) <==> id == []
  {
    if id != [] {
      assert IsDigit(id[0]) && !IsJsWhitespace(id[0]);
    }
  }

  /** For an id typed into the input, the button is enabled exactly when some digit was typed. */
  lemma TypedIdTrackEnabled(typed: string)
    ensures Trim(DigitsOnly(typed)) != [] <==> exists i :: 0 <= i < |typed| && IsDigit(typed[i])
  {
    var id := DigitsOnly(typed);
    TrimEmptyIff(id);
    DigitsNotBlank(id);
    DigitsOnlyEmptyIff(typed);
  }

  /**
   * The id a decoded QR text yields, if it is accepted: the text must
   * contain the trace host and read as a URL with a non-empty `id`.
   */
  function AcceptedScan(decodedText: string, url: ScannedUrl): (accepted: Option<string>)
    ensures accepted.Some? <==> Contains(decodedText, TraceHost) && url.Url? && Truthy(url.idParam)
    ensures accepted.Some? ==> accepted == url.idParam && accepted.value != ""
  {
    if decodedText != "" && Contains(decodedText, TraceHost) then
      match url
      case NotAUrl => None
      case Url(idParam) => if Truthy(idParam) then idParam else None
    else None
  }

  /** A text without the trace host is rejected, whatever URL it reads as. */
  lemma ScanWithoutHostRejected(decodedText: string, url: ScannedUrl)
    requires forall i: nat :: !OccursAt(decodedText, TraceHost, i)
    ensures AcceptedScan(decodedText, url) == None
  {
    ContainsIff(decodedText, TraceHost);
  }

  // ---------------------------------------------------------------------------
  // The component's state
  // ---------------------------------------------------------------------------

  class EntryScreen {
    var currentView: View
    var productId: string
    var showScanner: bool
    var locationReady: bool
    var userCoords: Option<ProductTracker.UserCoords>
    var idw: Option<string>
    /** The `id` query parameter of the page's address. */
    var addressId: Option<string>
    /** The `idw` query parameter of the page's address. */
    const addressIdw: Option<string>

    /** The scanner overlay is never open behind the tracker. */
    ghost predicate Valid()
      reads this
    {
      currentView == TrackerView ==> !showScanner
    }

    /** The first render, at an address with the given `id` and `idw` parameters. */
    constructor (urlId: Option<string>, urlIdw: Option<string>)
      ensures Valid()
      ensures currentView == ScannerView && productId == "" && !showScanner && !locationReady
      ensures userCoords == None && idw == None && addressId == urlId && addressIdw == urlIdw
    {
      currentView := ScannerView;
      productId := "";
      showScanner := false;
      locationReady := false;
      userCoords := None;
      idw := None;
      addressId := urlId;
      addressIdw := urlIdw;
    }

    /** `!locationReady` first, then the tracker, then the scanner overlay, then the entry card. */
    function Screen(): (screen: Screen)
      reads this
      ensures !locationReady ==> screen == WaitingForLocation
      ensures locationReady && currentView == TrackerView ==> screen == TrackerScreen
      ensures locationReady && currentView == ScannerView && showScanner ==> screen == ScannerOverlay
      ensures locationReady && currentView == ScannerView && !showScanner ==> screen == EntryCard
    {
      if !locationReady then WaitingForLocation
      else if currentView == TrackerView then TrackerScreen
      else if showScanner then ScannerOverlay
      else EntryCard
    }

    /** `disabled={!productId.trim()}` on the Track button, negated. */
    function TrackEnabled(): (enabled: bool)
      reads this
      ensures enabled <==> exists i :: 0 <= i < |productId| && !IsJsWhitespace(productId[i])
    {
      TrackEnabledIff(productId);
      Trim(productId) != []
    }

    /** The effect that reads the address when the page loads, before anything is clicked. */
    method SeedFromUrl()
      requires Valid() && !showScanner
      modifies this
      ensures Valid()
      ensures Truthy(addressId) ==> productId == addressId.value && currentView == TrackerView
      ensures !Truthy(addressId) ==> productId == old(productId) && currentView == old(currentView)
      ensures idw == if Truthy(addressIdw) then addressIdw else old(idw)
      ensures showScanner == old(showScanner) && locationReady == old(locationReady)
      ensures userCoords == old(userCoords) && addressId == old(addressId)
    {
      if Truthy(addressIdw) {
        idw := addressIdw;
      }
      if Truthy(addressId) {
        productId := addressId.value;
        currentView := TrackerView;
      }
    }

    /** `onChange` of the id input. */
    method OnInputChange(typed: string)
      requires Valid()
      modifies this
      ensures Valid() && productId == DigitsOnly(typed)
      ensures currentView == old(currentView) && showScanner == old(showScanner)
      ensures locationReady == old(locationReady) && userCoords == old(userCoords)
      ensures idw == old(idw) && addressId == old(addressId)
    {
      productId := DigitsOnly(typed);
    }

    /** `handleManualEntry`, run from the entry card by the Track button or the Enter key. */
    method HandleManualEntry()
      requires Valid() && !showScanner
      modifies this
      ensures Valid()
      ensures old(TrackEnabled()) ==> currentView == TrackerView && addressId == Some(productId)
      ensures !old(TrackEnabled()) ==> currentView == old(currentView) && addressId == old(addressId)
      ensures productId == old(productId) && showScanner == old(showScanner)
      ensures locationReady == old(locationReady) && userCoords == old(userCoords) && idw == old(idw)
    {
      if Trim(productId) != [] {
        currentView := TrackerView;
        addressId := Some(productId);
      }
    }

    /** The Scan Product QR button of the entry card. */
    method OpenScanner()
      requires Valid() && currentView == ScannerView
      modifies this
      ensures Valid() && showScanner
      ensures currentView == old(currentView) && productId == old(productId)
      ensures locationReady == old(locationReady) && userCoords == old(userCoords)
      ensures idw == old(idw) && addressId == old(addressId)
    {
      showScanner := true;
    }

    /** The Cancel button of the overlay, and the camera failing to start. */
    method CloseScanner()
      requires Valid()
      modifies this
      ensures Valid() && !showScanner
      ensures currentView == old(currentView) && productId == old(productId)
      ensures locationReady == old(locationReady) && userCoords == old(userCoords)
      ensures idw == old(idw) && addressId == old(addressId)
    {
      showScanner := false;
    }

    /** The scanner's success callback for one decoded text. */
    method OnQrDecoded(decodedText: string, url: ScannedUrl)
      requires Valid()
      modifies this
      ensures Valid()
      ensures AcceptedScan(decodedText, url).Some? ==>
        var id := AcceptedScan(decodedText, url).value;
        && !showScanner && productId == id && currentView == TrackerView && addressId == Some(id)
      ensures AcceptedScan(decodedText, url).None? ==>
        && showScanner == old(showScanner) && productId == old(productId)
        && currentView == old(currentView) && addressId == old(addressId)
      ensures locationReady == old(locationReady) && userCoords == old(userCoords) && idw == old(idw)
    {
      var accepted := AcceptedScan(decodedText, url);
      if accepted.Some? {
        showScanner := false;
        productId := accepted.value;
        currentView := TrackerView;
        addressId := accepted;
      }
    }

    /** The `onBack` handed to the tracker: back to the entry card, with the id cleared everywhere. */
    method OnBack()
      requires Valid()
      modifies this
      ensures Valid()
      ensures currentView == ScannerView && productId == "" && addressId == None
      ensures old(currentView) == TrackerView && locationReady ==> Screen() == EntryCard
      ensures showScanner == old(showScanner) && locationReady == old(locationReady)
      ensures userCoords == old(userCoords) && idw == old(idw)
    {
      currentView := ScannerView;
      productId := "";
      addressId := None;
    }

    /** The geolocation request succeeding with the viewer's position. */
    method OnLocationFound(c: ProductTracker.UserCoords)
      requires Valid()
      modifies this
      ensures Valid() && locationReady && userCoords == Some(c)
      ensures currentView == old(currentView) && productId == old(productId)
      ensures showScanner == old(showScanner) && idw == old(idw) && addressId == old(addressId)
    {
      userCoords := Some(c);
      locationReady := true;
    }

    /** The geolocation request failing or being refused, or the browser having no geolocation. */
    method OnLocationUnavailable()
      requires Valid()
      modifies this
      ensures Valid() && locationReady
      ensures userCoords == old(userCoords)
      ensures currentView == old(currentView) && productId == old(productId)
      ensures showScanner == old(showScanner) && idw == old(idw) && addressId == old(addressId)
    {
      locationReady := true;
    }
  }
}
