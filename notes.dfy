/**
 * The booking-notes codec. A booking's notes are written as
 * `Booking for {service} - Provider: {provider}` and several views read the
 * service and provider names back, each with its own split.
 */
module Notes {
  import opened Wrappers
  import opened Strings

  const BookingPrefix := "Booking for "
  const ProviderSeparator := " - Provider: "
  const Dash := " - "
  const BookingMarker := "Booking for"
  const ProviderMarker := "Provider:"
  const ProviderPrefix := "Provider: "

  const DefaultServiceName := "Home Service"
  const DefaultProviderName := "Service Provider"
  const UnknownService := "Unknown Service"
  const UnknownProvider := "Unknown Provider"

  /** The notes written when a customer books `service` from `provider`. */
  function Encode(service: string, provider: string): string {
    BookingPrefix + service + ProviderSeparator + provider
  }

  /** The service name of a booking read from MongoDB, as its mock service object computes it. */
  function MockServiceName(notes: string): (r: string)
    ensures !Contains(notes, ProviderSeparator) ==> r == DefaultServiceName
  {
    if Contains(notes, ProviderSeparator) then
      var part := Split(notes, ProviderSeparator)[0];
      if StartsWith(part, BookingPrefix) then RemoveAll(part, BookingPrefix) else part
    else DefaultServiceName
  }

  /** Service and provider names shown on the payment success and failure pages. */
  datatype Brief = Brief(service: string, provider: string)

  /** Both payment-result pages parse the notes the same way. */
  function ParseBrief(notes: string): (r: Brief)
    ensures notes == "" ==> r == Brief(DefaultServiceName, DefaultProviderName)
    ensures !Contains(notes, ProviderSeparator) ==> r == Brief(DefaultServiceName, DefaultProviderName)
  {
    var defaults := Brief(DefaultServiceName, DefaultProviderName);
    if notes == "" then defaults
    else if Contains(notes, ProviderSeparator) then
      var parts := Split(notes, ProviderSeparator);
      if |parts| == 2 then
        var service := if StartsWith(parts[0], BookingPrefix) then RemoveAll(parts[0], BookingPrefix)
                       else DefaultServiceName;
        Brief(service, parts[1])
      else defaults
    else defaults
  }

  /** The service details the payment page shows. */
  datatype ServiceInfo = ServiceInfo(name: string, description: string, category: string,
                                     duration: int, provider: string)

  const DefaultServiceInfo := ServiceInfo(DefaultServiceName, "Professional home service", "General", 2, DefaultProviderName)

  /** `get_service_details_by_name`: the first catalogue entry with exactly that name. */
  function FindByName(catalogue: seq<ServiceInfo>, name: string): (r: Option<ServiceInfo>)
    ensures r.Some? ==> r.value in catalogue && r.value.name == name
    ensures r.Some? ==> exists k :: 0 <= k < |catalogue| && catalogue[k] == r.value
                                    && forall j :: 0 <= j < k ==> catalogue[j].name != name
    ensures r.None? ==> forall i :: 0 <= i < |catalogue| ==> catalogue[i].name != name
  {
    if catalogue == [] then None
    else if catalogue[0].name == name then Some(catalogue[0])
    else
      var rest := FindByName(catalogue[1..], name);
      assert rest.Some? ==> exists k :: 1 <= k < |catalogue| && catalogue[k] == rest.value
                                        && forall j :: 0 <= j < k ==> catalogue[j].name != name by {
        if rest.Some? {
          var k :| 0 <= k < |catalogue| - 1 && catalogue[1..][k] == rest.value
                   && forall j :: 0 <= j < k ==> catalogue[1..][j].name != name;
          assert catalogue[k + 1] == rest.value;
          assert forall j :: 0 <= j < k + 1 ==> catalogue[j].name != name by {
            forall j | 0 <= j < k + 1 ensures catalogue[j].name != name {
              if j > 0 { assert catalogue[j] == catalogue[1..][j - 1]; }
            }
          }
        }
      }
      rest
  }

  /** Two catalogue entries of the same name: the first one is found. */
  lemma FindByNameTakesFirst(a: ServiceInfo, b: ServiceInfo)
    requires a.name == b.name
    ensures FindByName([a, b], a.name) == Some(a)
  {
  }

  /** The name, replaced by the catalogue entry of that name when there is one. */
  function Lookup(info: ServiceInfo, catalogue: seq<ServiceInfo>): ServiceInfo {
    FindByName(catalogue, info.name).GetOr(info)
  }

  /** `PaymentView.parse_service_info_from_notes` */
  function ParsePaymentInfo(notes: string, catalogue: seq<ServiceInfo>): (r: ServiceInfo)
    ensures notes == "" ==> r == DefaultServiceInfo
  {
    if notes == "" then DefaultServiceInfo
    else if Contains(notes, ProviderSeparator) then
      var parts := Split(notes, ProviderSeparator);
      if |parts| == 2 then
        var info :=
          if StartsWith(parts[0], BookingPrefix) then
            Lookup(DefaultServiceInfo.(name := RemoveAll(parts[0], BookingPrefix)), catalogue)
          else DefaultServiceInfo;
        info.(provider := parts[1])
      else DefaultServiceInfo
    else if Contains(notes, BookingPrefix) then
      var name := Split(RemoveAll(notes, BookingPrefix), Dash)[0];
      Lookup(DefaultServiceInfo.(name := name), catalogue)
    else DefaultServiceInfo
  }

  /** The invoice's service name: the service document's name, else read from the notes. */
  function InvoiceServiceName(serviceDoc: Option<string>, notes: string): (r: string)
    ensures serviceDoc.Some? ==> r == serviceDoc.value
    ensures serviceDoc.None? && !Contains(notes, BookingMarker) ==> r == UnknownService
  {
    if serviceDoc.Some? then serviceDoc.value
    else if notes != "" && Contains(notes, BookingMarker) then
      Strip(RemoveAll(Split(notes, Dash)[0], BookingPrefix))
    else UnknownService
  }

  /** The fields of a provider's user document. */
  datatype ProviderDoc = ProviderDoc(firstName: string, lastName: string, email: string)

  /** The invoice's provider name: the provider's full name or e-mail, else read from the notes. */
  function InvoiceProviderName(providerDoc: Option<ProviderDoc>, notes: string): (r: string)
    ensures providerDoc.Some? && providerDoc.value.email != "" ==> r != ""
    ensures providerDoc.None? && !Contains(notes, ProviderMarker) ==> r == UnknownProvider
  {
    match providerDoc
    case Some(d) =>
      var full := Strip(d.firstName + " " + d.lastName);
      if full != "" then full else d.email
    case None =>
      if notes != "" && Contains(notes, ProviderMarker) then
        var parts := Split(notes, Dash);
        if |parts| >= 2 then Strip(RemoveAll(parts[1], ProviderPrefix)) else UnknownProvider
      else UnknownProvider
  }

  /**
   * The stand-in provider document built from a provider name when there is
   * no real one: the first word as first name, the remaining words joined
   * by spaces as last name.
   */
  function NameParts(name: string): (r: ProviderDoc)
    ensures r.email == "Not available"
  {
    var ws := Words(name);
    ProviderDoc(if ws != [] then ws[0] else name, if |ws| > 1 then JoinSpace(ws[1..]) else "", "Not available")
  }

  /** The provider line of the PDF: the stripped full name, else the e-mail, else `Service Provider`. */
  function PdfProviderName(doc: ProviderDoc, hasEmail: bool): (r: string)
    ensures Strip(doc.firstName + " " + doc.lastName) != "" ==> r == Strip(doc.firstName + " " + doc.lastName)
    ensures Strip(doc.firstName + " " + doc.lastName) == "" ==> r == if hasEmail then doc.email else DefaultProviderName
  {
    var full := Strip(doc.firstName + " " + doc.lastName);
    if full != "" then full else if hasEmail then doc.email else DefaultProviderName
  }

  // ---------------------------------------------------------------------------
  // Round trips.

  /** The conditions on names under which every parser reads its own name back. */
  predicate CleanName(s: string) {
    '-' !in s && !Contains(s, BookingPrefix) && !Contains(s, ProviderPrefix) && IsStripped(s)
  }

  /**
   * A separator whose second character is `-` and whose first is not is
   * found first at the join when the text before it has no `-`.
   */
  lemma SplitAfterDashFree(a: string, sep: string, rest: string)
    requires |sep| > 1 && sep[1] == '-' && sep[0] != '-' && '-' !in a
    ensures Split(a + sep + rest, sep) == [a] + Split(rest, sep)
  {
    var t := a + sep + rest;
    forall i | 0 <= i <= |a|
      ensures t[i] != '-'
    {
      if i < |a| {
        assert t[i] == a[i];
      } else {
        assert t[i] == sep[0];
      }
    }
    NoOccurrenceBefore(t, sep, 1, |a|);
    SplitAtJoin(a, sep, rest);
  }

  lemma ContainsAt(t: string, p: string, k: nat)
    requires k + |p| <= |t| && StartsWith(t[k..], p)
    ensures Contains(t, p)
  {
  }

  /** The notes written at booking start with the booking prefix and carry the provider separator. */
  lemma EncodeContainsSeparator(service: string, provider: string)
    ensures StartsWith(Encode(service, provider), BookingPrefix)
    ensures Contains(Encode(service, provider), ProviderSeparator)
  {
    var t := Encode(service, provider);
    var k := |BookingPrefix| + |service|;
    assert t[..|BookingPrefix|] == BookingPrefix;
    assert t[k..][..|ProviderSeparator|] == ProviderSeparator;
    ContainsAt(t, ProviderSeparator, k);
  }

  lemma PrefixFacts()
    ensures '-' !in BookingPrefix && '-' !in ProviderPrefix
    ensures ProviderSeparator == Dash + ProviderPrefix
    ensures |ProviderSeparator| > 1 && ProviderSeparator[1] == '-' && ProviderSeparator[0] != '-'
    ensures |Dash| > 1 && Dash[1] == '-' && Dash[0] != '-'
  {
  }

  /** The notes split at the provider separator into exactly the prefixed service name and the provider. */
  lemma SplitEncoded(service: string, provider: string)
    requires '-' !in service && !Contains(provider, ProviderSeparator)
    ensures Split(Encode(service, provider), ProviderSeparator) == [BookingPrefix + service, provider]
  {
    PrefixFacts();
    var a := BookingPrefix + service;
    assert '-' !in a;
    assert Encode(service, provider) == a + ProviderSeparator + provider;
    SplitAfterDashFree(a, ProviderSeparator, provider);
    SplitWithout(provider, ProviderSeparator);
  }

  lemma StripPrefix(service: string)
    requires !Contains(service, BookingPrefix)
    ensures RemoveAll(BookingPrefix + service, BookingPrefix) == service
  {
    RemoveAllPrefix(BookingPrefix, service);
    RemoveAllWithout(service, BookingPrefix);
  }

  /** The mock service object reads back the service name. */
  lemma MockServiceNameRoundTrip(service: string, provider: string)
    requires '-' !in service && !Contains(service, BookingPrefix)
    ensures MockServiceName(Encode(service, provider)) == service
  {
    PrefixFacts();
    var a := BookingPrefix + service;
    assert '-' !in a;
    EncodeContainsSeparator(service, provider);
    assert Encode(service, provider) == a + ProviderSeparator + provider;
    SplitAfterDashFree(a, ProviderSeparator, provider);
    assert StartsWith(a, BookingPrefix);
    StripPrefix(service);
  }

  /** The payment-result pages read back both names. */
  lemma ParseBriefRoundTrip(service: string, provider: string)
    requires '-' !in service && !Contains(service, BookingPrefix)
    requires !Contains(provider, ProviderSeparator)
    ensures ParseBrief(Encode(service, provider)) == Brief(service, provider)
  {
    EncodeContainsSeparator(service, provider);
    SplitEncoded(service, provider);
    assert StartsWith(BookingPrefix + service, BookingPrefix);
    StripPrefix(service);
  }

  /**
   * The payment page reads back the provider, and the service name, which
   * it then replaces by the catalogue entry of that name when one exists.
   */
  lemma ParsePaymentInfoRoundTrip(service: string, provider: string, catalogue: seq<ServiceInfo>)
    requires '-' !in service && !Contains(service, BookingPrefix)
    requires !Contains(provider, ProviderSeparator)
    ensures ParsePaymentInfo(Encode(service, provider), catalogue).provider == provider
    ensures FindByName(catalogue, service).None? ==>
      ParsePaymentInfo(Encode(service, provider), catalogue) == DefaultServiceInfo.(name := service, provider := provider)
    ensures FindByName(catalogue, service).Some? ==>
      ParsePaymentInfo(Encode(service, provider), catalogue) == FindByName(catalogue, service).value.(provider := provider)
  {
    EncodeContainsSeparator(service, provider);
    SplitEncoded(service, provider);
    assert StartsWith(BookingPrefix + service, BookingPrefix);
    StripPrefix(service);
  }

  /** The notes split at ` - ` into the prefixed service name and the prefixed provider name. */
  lemma SplitEncodedAtDash(service: string, provider: string)
    requires '-' !in service && '-' !in provider
    ensures Split(Encode(service, provider), Dash) == [BookingPrefix + service, ProviderPrefix + provider]
  {
    PrefixFacts();
    var a := BookingPrefix + service;
    var b := ProviderPrefix + provider;
    assert '-' !in a && '-' !in b;
    assert Encode(service, provider) == a + Dash + b;
    SplitAfterDashFree(a, Dash, b);
    NotContainedWithoutChar(b, Dash, 1);
    SplitWithout(b, Dash);
  }

  /** The invoice view reads back a clean service name. */
  lemma InvoiceServiceNameRoundTrip(service: string, provider: string)
    requires CleanName(service) && '-' !in provider
    ensures InvoiceServiceName(None, Encode(service, provider)) == service
  {
    var t := Encode(service, provider);
    EncodeContainsBookingMarker(service, provider);
    SplitEncodedAtDash(service, provider);
    var head := Split(t, Dash)[0];
    assert head == BookingPrefix + service;
    StripPrefix(service);
    StrippedUnchanged(service);
    assert InvoiceServiceName(None, t) == Strip(RemoveAll(head, BookingPrefix));
  }

  /** Encoded notes are non-empty and carry the booking marker at their start. */
  lemma EncodeContainsBookingMarker(service: string, provider: string)
    ensures Encode(service, provider) != "" && Contains(Encode(service, provider), BookingMarker)
  {
    var t := Encode(service, provider);
    assert t[..|BookingMarker|] == BookingMarker;
    ContainsAt(t, BookingMarker, 0);
  }

  /** Encoded notes carry the provider marker. */
  lemma EncodeContainsProviderMarker(service: string, provider: string)
    ensures Contains(Encode(service, provider), ProviderMarker)
  {
    var a := BookingPrefix + service + Dash;
    var t := Encode(service, provider);
    assert ProviderSeparator == Dash + ProviderMarker + " ";
    assert t == a + ProviderMarker + (" " + provider);
    ContainsInMiddle(a, ProviderMarker, " " + provider);
  }

  /** A text occurs in any text it sits in the middle of. */
  lemma ContainsInMiddle(a: string, p: string, b: string)
    ensures Contains(a + p + b, p)
  {
    var t := a + p + b;
    assert t[|a|..][..|p|] == p;
    ContainsAt(t, p, |a|);
  }

  /** A clean provider name is what is left of its prefixed form. */
  lemma StripProviderPrefix(provider: string)
    requires CleanName(provider)
    ensures Strip(RemoveAll(ProviderPrefix + provider, ProviderPrefix)) == provider
  {
    RemoveAllPrefix(ProviderPrefix, provider);
    RemoveAllWithout(provider, ProviderPrefix);
    StrippedUnchanged(provider);
  }

  /** The invoice view reads back a clean provider name. */
  lemma InvoiceProviderNameRoundTrip(service: string, provider: string)
    requires '-' !in service && CleanName(provider)
    ensures InvoiceProviderName(None, Encode(service, provider)) == provider
  {
    EncodeContainsProviderMarker(service, provider);
    SplitEncodedAtDash(service, provider);
    StripProviderPrefix(provider);
  }

  /** Booking notes that are empty give every parser its defaults. */
  lemma EmptyNotesDefaults(catalogue: seq<ServiceInfo>)
    ensures MockServiceName("") == DefaultServiceName
    ensures ParseBrief("") == Brief(DefaultServiceName, DefaultProviderName)
    ensures ParsePaymentInfo("", catalogue) == DefaultServiceInfo
    ensures InvoiceServiceName(None, "") == UnknownService
    ensures InvoiceProviderName(None, "") == UnknownProvider
  {
    NotContainedWithoutChar("", ProviderSeparator, 0);
  }

  /** Notes with two provider separators are not read at all by the payment-result pages. */
  lemma ThreePartsGiveDefaults(a: string, b: string, c: string)
    requires '-' !in a && '-' !in b && !Contains(c, ProviderSeparator)
    ensures ParseBrief(a + ProviderSeparator + b + ProviderSeparator + c) == Brief(DefaultServiceName, DefaultProviderName)
  {
    SplitThreeParts(a, b, c);
  }

  /** Two provider separators between dash-free names split the notes into three parts. */
  lemma SplitThreeParts(a: string, b: string, c: string)
    requires '-' !in a && '-' !in b && !Contains(c, ProviderSeparator)
    ensures Split(a + ProviderSeparator + b + ProviderSeparator + c, ProviderSeparator) == [a, b, c]
  {
    PrefixFacts();
    var t := a + ProviderSeparator + b + ProviderSeparator + c;
    assert t == a + ProviderSeparator + (b + ProviderSeparator + c);
    SplitAfterDashFree(a, ProviderSeparator, b + ProviderSeparator + c);
    SplitAfterDashFree(b, ProviderSeparator, c);
    SplitWithout(c, ProviderSeparator);
  }

  /**
   * Excluding the separator from the names is not enough: the service name
   * `- Provider: x` does not contain ` - Provider: `, yet its notes split
   * into three parts and the payment pages fall back to the defaults.
   */
  lemma SeparatorFreeIsNotEnough()
    ensures !Contains("- Provider: x", ProviderSeparator)
    ensures ParseBrief(Encode("- Provider: x", "y")) == Brief(DefaultServiceName, DefaultProviderName)
  {
    var s := "- Provider: x";
    assert s[..|ProviderSeparator|][0] != ProviderSeparator[0];
    assert Encode(s, "y") == "Booking for" + ProviderSeparator + "x" + ProviderSeparator + "y";
    NotContainedWithoutChar("y", ProviderSeparator, 0);
    ThreePartsGiveDefaults("Booking for", "x", "y");
  }

  // ---------------------------------------------------------------------------
  // Provider names split into first and last name and joined again.

  /** Words joined with single spaces start and end with a non-space. */
  lemma JoinSpaceStripped(ws: seq<string>)
    requires ws != [] && forall i :: 0 <= i < |ws| ==> IsWord(ws[i])
    ensures IsStripped(JoinSpace(ws))
  {
    var r := JoinSpace(ws);
    var first, last := ws[0], ws[|ws| - 1];
    JoinSpaceEnds(ws);
    assert IsWord(first) && IsWord(last);
    assert r[0] == r[..|first|][0] == first[0];
    assert r[|r| - 1] == r[|r| - |last|..][|last| - 1] == last[|last| - 1];
  }

  lemma StripWordSpace(w: string)
    requires IsWord(w)
    ensures Strip(w + " ") == w
  {
    var t := w + " ";
    assert !IsSpace(t[0]);
    assert StripLeft(t) == t;
    assert t[..|t| - 1] == w;
    assert StripRight(w) == w by {
      assert !IsSpace(w[|w| - 1]);
    }
  }

  /** Splitting words joined by single spaces gives the first word and the rest, re-joined. */
  lemma NamePartsOfJoin(ws: seq<string>)
    requires ws != [] && forall i :: 0 <= i < |ws| ==> IsWord(ws[i])
    ensures NameParts(JoinSpace(ws)) == ProviderDoc(ws[0], if |ws| > 1 then JoinSpace(ws[1..]) else "", "Not available")
  {
    WordsOfJoin(ws);
  }

  /**
   * A provider name made of words separated by single spaces survives the
   * split into first and last name and the PDF's re-join.
   */
  lemma NamePartsRoundTrip(ws: seq<string>, hasEmail: bool)
    requires ws != [] && forall i :: 0 <= i < |ws| ==> IsWord(ws[i])
    ensures PdfProviderName(NameParts(JoinSpace(ws)), hasEmail) == JoinSpace(ws)
  {
    var d := NameParts(JoinSpace(ws));
    NamePartsOfJoin(ws);
    PdfOfParts(ws, d, hasEmail);
  }

  lemma PdfOfParts(ws: seq<string>, d: ProviderDoc, hasEmail: bool)
    requires ws != [] && forall i :: 0 <= i < |ws| ==> IsWord(ws[i])
    requires d == ProviderDoc(ws[0], if |ws| > 1 then JoinSpace(ws[1..]) else "", "Not available")
    ensures PdfProviderName(d, hasEmail) == JoinSpace(ws)
  {
    var full := Strip(d.firstName + " " + d.lastName);
    var joined := JoinSpace(ws);
    if |ws| == 1 {
      assert joined == ws[0];
      assert d.firstName + " " + d.lastName == ws[0] + " ";
      StripWordSpace(ws[0]);
      assert full == joined;
    } else {
      RejoinParts(ws);
      assert full == joined;
    }
    assert full != "" by {
      JoinSpaceEnds(ws);
    }
  }

  lemma RejoinParts(ws: seq<string>)
    requires |ws| > 1 && forall i :: 0 <= i < |ws| ==> IsWord(ws[i])
    ensures Strip(ws[0] + " " + JoinSpace(ws[1..])) == JoinSpace(ws)
  {
    JoinSpaceStripped(ws);
    StrippedUnchanged(JoinSpace(ws));
  }
}
