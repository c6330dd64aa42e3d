/**
 * How the admin approve and reject requests find their booking: by a
 * position in the pending list, or by the customer's e-mail and the exact
 * amount, optionally narrowed by address and then by notes.
 */
module Matching {
  import opened Wrappers
  import opened Strings
  import opened Seqs
  import opened Models
  import opened Lifecycle

  /** `find_one({'_id': id})`: the position of the booking with that id, if any. */
  function FindId(bs: seq<Booking>, id: string): (r: Option<nat>)
    ensures r.Some? ==> r.value < |bs| && bs[r.value].id == id && forall j :: 0 <= j < r.value ==> bs[j].id != id
    ensures r.None? <==> forall j :: 0 <= j < |bs| ==> bs[j].id != id
    decreases |bs|
  {
    if bs == [] then None
    else if bs[0].id == id then Some(0)
    else match FindId(bs[1..], id)
      case Some(k) => Some(k + 1)
      case None => None
  }

  /** `find_one({'_id': id, 'customer_id': user})`: the booking must also belong to the user. */
  function OwnedAt(bs: seq<Booking>, id: string, user: nat): (r: Option<nat>)
    ensures r.Some? <==> FindId(bs, id).Some? && bs[FindId(bs, id).value].customer == user
    ensures r.Some? ==> r == FindId(bs, id)
  {
    match FindId(bs, id)
    case Some(k) => if bs[k].customer == user then Some(k) else None
    case None => None
  }

  /** Positions of the pending bookings, in the store's order (newest first). */
  function PendingIndices(bs: seq<Booking>): (r: seq<nat>)
    ensures forall i: nat :: i in r <==> i < |bs| && bs[i].status == Pending
    ensures forall k :: 0 <= k < |r| ==> r[k] < |bs|
  {
    Filter(Range(|bs|), (i: nat) => i < |bs| && bs[i].status == Pending)
  }

  /** Positions of one customer's bookings, in the store's order. */
  function CustomerIndices(bs: seq<Booking>, customer: nat): (r: seq<nat>)
    ensures forall i: nat :: i in r <==> i < |bs| && bs[i].customer == customer
    ensures forall k :: 0 <= k < |r| ==> r[k] < |bs|
  {
    Filter(Range(|bs|), (i: nat) => i < |bs| && bs[i].customer == customer)
  }

  /** An index into a list: valid iff `0 <= index < len`, else "Booking not found." */
  function Select(positions: seq<nat>, index: int): (r: Result<nat, Failure>)
    ensures r.Ok? <==> 0 <= index < |positions|
    ensures r.Ok? ==> r.value == positions[index]
    ensures r.Err? ==> r.error == BookingNotFound
  {
    if 0 <= index < |positions| then Ok(positions[index]) else Err(BookingNotFound)
  }

  /** The index-based request: the `index`-th pending booking. */
  function PendingAt(bs: seq<Booking>, index: int): (r: Result<nat, Failure>)
    ensures r.Ok? <==> 0 <= index < |PendingIndices(bs)|
    ensures r.Ok? ==> r.value < |bs| && bs[r.value].status == Pending
    ensures r.Err? ==> r.error == BookingNotFound
  {
    Select(PendingIndices(bs), index)
  }

  /**
   * The amount as the request carries it: a decimal `value`, sent as a JSON
   * string when `asText` and as a JSON number otherwise, or text that is not
   * a decimal number.
   */
  datatype AmountInput = NoAmount | Amount(value: real, asText: bool) | Unparseable(raw: string)

  /**
   * Python truthiness of the amount: a missing amount, the number zero and
   * the empty string are false; any other string, `"0.00"` included, is true.
   */
  predicate AmountGiven(a: AmountInput) {
    match a
    case NoAmount => false
    case Amount(v, asText) => asText || v != 0.0
    case Unparseable(raw) => raw != ""
  }

  /** A zero amount is missing when sent as a number and given when sent as text. */
  lemma ZeroAmountTruthiness()
    ensures !AmountGiven(Amount(0.0, false))
    ensures AmountGiven(Amount(0.0, true))
    ensures forall v: real :: v != 0.0 ==> AmountGiven(Amount(v, false))
  {
  }

  /** The booking details a data-based request carries. */
  datatype Details = Details(email: string, amount: AmountInput, date: string, address: string, notes: string)

  /** `all([customer_email, booking_amount, booking_date])` */
  predicate HasRequiredInfo(d: Details) {
    d.email != "" && AmountGiven(d.amount) && d.date != ""
  }

  /** A pending booking of that customer with exactly that amount. */
  predicate IsCandidate(b: Booking, email: string, amount: real) {
    b.status == Pending && b.customerEmail == email && b.totalAmount == amount
  }

  /** The initial matches, in the store's order. */
  function Candidates(bs: seq<Booking>, email: string, amount: real): (r: seq<nat>)
    ensures forall i: nat :: i in r <==> i < |bs| && IsCandidate(bs[i], email, amount)
    ensures forall k :: 0 <= k < |r| ==> r[k] < |bs|
  {
    Filter(Range(|bs|), (i: nat) => i < |bs| && IsCandidate(bs[i], email, amount))
  }

  /** The two text fields narrowing may look at. */
  datatype Field = AddressField | NotesField

  function FieldOf(b: Booking, f: Field): string {
    match f
    case AddressField => b.address
    case NotesField => b.notes
  }

  /** `field__icontains=key`, with ASCII case folding. */
  predicate IContains(text: string, key: string) {
    Contains(Lower(text), Lower(key))
  }

  /** The match at position `k` has the stripped key in the chosen field. */
  predicate Keeps(bs: seq<Booking>, key: string, f: Field, k: nat) {
    k < |bs| && IContains(FieldOf(bs[k], f), Strip(key))
  }

  /** `c.filter(field__icontains=key)`: the positions in `c` that keep the key, in order. */
  function Matches(bs: seq<Booking>, c: seq<nat>, key: string, f: Field): (r: seq<nat>)
    ensures IsSubsequence(r, c) && |r| <= |c|
    ensures forall i: nat :: i in r <==> i in c && Keeps(bs, key, f, i)
    decreases |c|
  {
    if c == [] then []
    else if Keeps(bs, key, f, c[0]) then [c[0]] + Matches(bs, c[1..], key, f)
    else Matches(bs, c[1..], key, f)
  }

  /**
   * One narrowing step: only when there are two or more matches and the
   * key is non-empty, keep the matches whose field contains the stripped key,
   * provided at least one does.
   */
  function Narrow(bs: seq<Booking>, c: seq<nat>, key: string, f: Field): (r: seq<nat>)
    ensures IsSubsequence(r, c) && |r| <= |c|
    ensures c != [] ==> r != []
    ensures (|c| <= 1 || key == "") ==> r == c
    ensures forall i :: i in r ==> i in c
    ensures r != c ==> forall i: nat :: i in r ==> Keeps(bs, key, f, i)
  {
    if |c| > 1 && key != "" then
      var m := Matches(bs, c, key, f);
      if m != [] then m else
        SubsequenceReflexive(c);
        c
    else
      SubsequenceReflexive(c);
      c
  }

  /** Candidates narrowed by address, then by notes. */
  function Refine(bs: seq<Booking>, d: Details, amount: real): seq<nat> {
    Narrow(bs, Narrow(bs, Candidates(bs, d.email, amount), d.address, AddressField), d.notes, NotesField)
  }

  /** Narrowing keeps only candidates and empties the set only when there were none. */
  lemma RefineShape(bs: seq<Booking>, d: Details, amount: real)
    ensures forall i: nat :: i in Refine(bs, d, amount) ==> i < |bs| && IsCandidate(bs[i], d.email, amount)
    ensures |Refine(bs, d, amount)| <= |Candidates(bs, d.email, amount)|
    ensures Refine(bs, d, amount) == [] <==> Candidates(bs, d.email, amount) == []
    ensures |Candidates(bs, d.email, amount)| == 1 ==> Refine(bs, d, amount) == Candidates(bs, d.email, amount)
  {
  }

  /** The three outcomes of the search. */
  datatype Match = NoneFound | Ambiguous | Exactly(index: nat)

  function Classify(c: seq<nat>): (r: Match)
    ensures r == NoneFound <==> |c| == 0
    ensures r == Ambiguous <==> |c| > 1
    ensures r.Exactly? <==> |c| == 1
    ensures r.Exactly? ==> c == [r.index]
  {
    if |c| == 0 then NoneFound else if |c| > 1 then Ambiguous else Exactly(c[0])
  }

  function MatchResult(m: Match): Result<nat, Failure> {
    match m
    case NoneFound => Err(NoMatchingBooking)
    case Ambiguous => Err(AmbiguousMatch)
    case Exactly(i) => Ok(i)
  }

  /** The search proper: no match, several, or the one that is left. */
  function Decide(bs: seq<Booking>, d: Details, amount: real): (r: Result<nat, Failure>)
    ensures r.Ok? <==> |Refine(bs, d, amount)| == 1
    ensures r.Ok? ==> Refine(bs, d, amount) == [r.value]
    ensures r.Ok? ==> r.value < |bs| && IsCandidate(bs[r.value], d.email, amount)
    ensures r == Err(NoMatchingBooking) <==> Candidates(bs, d.email, amount) == []
    ensures r == Err(AmbiguousMatch) <==> |Refine(bs, d, amount)| > 1
  {
    RefineShape(bs, d, amount);
    var c := Refine(bs, d, amount);
    assert c != [] ==> c[0] in c;
    MatchResult(Classify(c))
  }

  /**
   * The data-based approve lookup as evidently intended: missing details, an
   * empty store, no pending booking at all and an amount that is not a number
   * are each refused; otherwise the refined matches decide between none,
   * several and exactly one.
   */
  function FindForApproval(bs: seq<Booking>, d: Details): (r: Result<nat, Failure>)
    ensures !HasRequiredInfo(d) ==> r == Err(MissingInformation)
    ensures HasRequiredInfo(d) && bs == [] ==> r == Err(NoBookings)
    ensures HasRequiredInfo(d) && bs != [] && PendingIndices(bs) == [] ==> r == Err(NoPendingBookings)
    ensures HasRequiredInfo(d) && bs != [] && PendingIndices(bs) != [] && d.amount.Unparseable? ==> r == Err(InvalidAmount)
    ensures r.Ok? ==> d.amount.Amount? && r.value < |bs| && IsCandidate(bs[r.value], d.email, d.amount.value)
    ensures r.Ok? ==> Refine(bs, d, d.amount.value) == [r.value]
    ensures r.Ok? <==> HasRequiredInfo(d) && bs != [] && PendingIndices(bs) != [] && d.amount.Amount?
                         && |Refine(bs, d, d.amount.value)| == 1
  {
    if !HasRequiredInfo(d) then Err(MissingInformation)
    else if bs == [] then Err(NoBookings)
    else if PendingIndices(bs) == [] then Err(NoPendingBookings)
    else match d.amount
      case Amount(v, _) => Decide(bs, d, v)
      case _ => Err(InvalidAmount)
  }

  /**
   * The same lookup as written: the handler for a failed decimal conversion
   * names `InvalidOperation`, which the view binds only by a later local
   * import, so evaluating the handler raises and the outer handler sends the
   * request to the MongoDB fallback instead of replying "invalid amount".
   */
  function FindForApprovalAsWritten(bs: seq<Booking>, d: Details): (r: Result<nat, Failure>)
    ensures HasRequiredInfo(d) && bs != [] && PendingIndices(bs) != [] && d.amount.Unparseable? ==> r == Err(LookupFallback)
    ensures !(HasRequiredInfo(d) && d.amount.Unparseable?) ==> r == FindForApproval(bs, d)
  {
    if !HasRequiredInfo(d) then Err(MissingInformation)
    else if bs == [] then Err(NoBookings)
    else if PendingIndices(bs) == [] then Err(NoPendingBookings)
    else match d.amount
      case Amount(v, _) => Decide(bs, d, v)
      case _ => Err(LookupFallback)
  }

  /** With a pending booking in the store, an amount such as "abc" never gets the "invalid amount" reply as written. */
  lemma InvalidAmountReplyUnreachable(b: Booking, d: Details)
    requires b.status == Pending && d.email != "" && d.date != "" && d.amount == Unparseable("abc")
    ensures FindForApprovalAsWritten([b], d) == Err(LookupFallback)
    ensures FindForApproval([b], d) == Err(InvalidAmount)
  {
    assert 0 in PendingIndices([b]);
  }

  /**
   * The data-based reject lookup: the same search without the store-wide
   * checks; an amount that is not a number sends the request to the
   * MongoDB fallback.
   */
  function FindForRejection(bs: seq<Booking>, d: Details): (r: Result<nat, Failure>)
    ensures !HasRequiredInfo(d) ==> r == Err(MissingInformation)
    ensures HasRequiredInfo(d) && d.amount.Unparseable? ==> r == Err(LookupFallback)
    ensures r.Ok? ==> d.amount.Amount? && r.value < |bs| && IsCandidate(bs[r.value], d.email, d.amount.value)
    ensures r.Ok? ==> Refine(bs, d, d.amount.value) == [r.value]
    ensures r.Ok? <==> HasRequiredInfo(d) && d.amount.Amount? && |Refine(bs, d, d.amount.value)| == 1
  {
    if !HasRequiredInfo(d) then Err(MissingInformation)
    else match d.amount
      case Amount(v, _) => Decide(bs, d, v)
      case _ => Err(LookupFallback)
  }

  /** A lone candidate is selected no matter what address and notes the request gives. */
  lemma LoneCandidateSelected(bs: seq<Booking>, d: Details, i: nat)
    requires HasRequiredInfo(d) && d.amount.Amount?
    requires Candidates(bs, d.email, d.amount.value) == [i]
    ensures FindForApproval(bs, d) == Ok(i) && FindForRejection(bs, d) == Ok(i)
  {
    RefineShape(bs, d, d.amount.value);
    assert i in PendingIndices(bs);
  }

  /**
   * When all candidates share their address and their notes, the narrowing
   * cannot tell them apart: two or more of them always end as "multiple
   * bookings found".
   */
  lemma AlikeCandidatesAmbiguous(bs: seq<Booking>, d: Details, i: nat, j: nat)
    requires HasRequiredInfo(d) && d.amount.Amount?
    requires i < |bs| && j < |bs| && i != j
    requires IsCandidate(bs[i], d.email, d.amount.value) && IsCandidate(bs[j], d.email, d.amount.value)
    requires forall k: nat :: k < |bs| && IsCandidate(bs[k], d.email, d.amount.value) ==>
               bs[k].address == bs[i].address && bs[k].notes == bs[i].notes
    ensures FindForApproval(bs, d) == Err(AmbiguousMatch)
    ensures FindForRejection(bs, d) == Err(AmbiguousMatch)
  {
    var c := Candidates(bs, d.email, d.amount.value);
    NarrowUniform(bs, c, d.address, AddressField, bs[i].address);
    NarrowUniform(bs, c, d.notes, NotesField, bs[i].notes);
    assert Refine(bs, d, d.amount.value) == c;
    assert i in c && j in c;
    TwoMembers(c, i, j);
    assert i in PendingIndices(bs);
  }

  /** Narrowing on a field all matches share changes nothing. */
  lemma NarrowUniform(bs: seq<Booking>, c: seq<nat>, key: string, f: Field, w: string)
    requires forall k: nat :: k in c ==> k < |bs| && FieldOf(bs[k], f) == w
    ensures Narrow(bs, c, key, f) == c
  {
    if |c| > 1 && key != "" {
      var v := IContains(w, Strip(key));
      MatchesUniform(bs, c, key, f, v);
    }
  }

  lemma {:induction false} MatchesUniform(bs: seq<Booking>, c: seq<nat>, key: string, f: Field, v: bool)
    requires forall k: nat :: k in c ==> Keeps(bs, key, f, k) == v
    ensures Matches(bs, c, key, f) == if v then c else []
    decreases |c|
  {
    if c != [] {
      assert c[0] in c;
      assert forall k: nat :: k in c[1..] ==> k in c;
      MatchesUniform(bs, c[1..], key, f, v);
    }
  }

  /** A sequence holding two different values has at least two elements. */
  lemma TwoMembers(r: seq<nat>, i: nat, j: nat)
    requires i in r && j in r && i != j
    ensures |r| > 1
  {
    var a :| 0 <= a < |r| && r[a] == i;
    var b :| 0 <= b < |r| && r[b] == j;
    assert a != b;
  }
}
