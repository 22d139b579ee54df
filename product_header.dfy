/** The status badge of the header card, src/components/ProductHeader.tsx. */
module ProductHeader {
  import opened Text

  const Green: string := "bg-green-600"
  const Yellow: string := "bg-yellow-500"
  const Blue: string := "bg-blue-500"
  const Gray: string := "bg-gray-500"

  /** `getStatusColor(status)`: a switch on `status.toLowerCase()`. */
  function StatusColor(status: string): (colour: string)
    ensures colour in {Green, Yellow, Blue, Gray}
  {
    var s := ToLower(status);
    if s == "certified" then Green
    else if s == "in transit" then Yellow
    else if s == "processing" then Blue
    else Gray
  }

  /** The colour depends only on the status up to letter case. */
  lemma StatusColorIgnoresCase(a: string, b: string)
    requires EqualIgnoringCase(a, b)
    ensures StatusColor(a) == StatusColor(b)
  {
    EqualIgnoringCaseMeansSameLower(a, b);
  }

  /** `status` compared with `word`, a lower-case keyword, ignoring case. */
  lemma MatchesKeyword(status: string, word: string)
    requires forall i :: 0 <= i < |word| ==> !IsUpperAscii(word[i])
    ensures ToLower(status) == word <==> EqualIgnoringCase(status, word)
  {
    ToLowerOfLower(word);
    if EqualIgnoringCase(status, word) {
      EqualIgnoringCaseMeansSameLower(status, word);
    }
  }

  /** "certified", "in transit" and "processing", in any letter case, and everything else. */
  lemma StatusColorTable(status: string)
    ensures EqualIgnoringCase(status, "certified") ==> StatusColor(status) == Green
    ensures EqualIgnoringCase(status, "in transit") ==> StatusColor(status) == Yellow
    ensures EqualIgnoringCase(status, "processing") ==> StatusColor(status) == Blue
    ensures (!EqualIgnoringCase(status, "certified") && !EqualIgnoringCase(status, "in transit")
             && !EqualIgnoringCase(status, "processing")) ==> StatusColor(status) == Gray
  {
    MatchesKeyword(status, "certified");
    MatchesKeyword(status, "in transit");
    MatchesKeyword(status, "processing");
  }
}
