/** The general panel: the form's initial values are read from the listing,
    and on submit the title is trimmed, missing subject and level lists
    become empty, and the remaining fields are packed into public data. */
module GeneralPanel {
  import opened Support
  import opened ListingData
  import PricingEngine

  /** A code point that JavaScript's `String.prototype.trim` removes: the
      white space and line terminator characters of ECMAScript. */
  predicate IsTrimmable(c: char) {
    || c == '\t' || c == '\n' || c == '\U{000B}' || c == '\U{000C}' || c == '\r' || c == ' '
    || c == '\U{00A0}' || c == '\U{1680}' || ('\U{2000}' <= c <= '\U{200A}')
    || c == '\U{2028}' || c == '\U{2029}' || c == '\U{202F}' || c == '\U{205F}'
    || c == '\U{3000}' || c == '\U{FEFF}'
  }

  /** `s` with its leading trimmable characters removed. */
  function TrimStart(s: string): (r: string)
    ensures |r| <= |s| && r == s[|s| - |r|..]
    ensures forall k :: 0 <= k < |s| - |r| ==> IsTrimmable(s[k])
    ensures |r| > 0 ==> !IsTrimmable(r[0])
  {
    if |s| > 0 && IsTrimmable(s[0]) then TrimStart(s[1..]) else s
  }

  /** `s` with its trailing trimmable characters removed. */
  function TrimEnd(s: string): (r: string)
    ensures |r| <= |s| && r == s[..|r|]
    ensures forall k :: |r| <= k < |s| ==> IsTrimmable(s[k])
    ensures |r| > 0 ==> !IsTrimmable(r[|r| - 1])
  {
    if |s| > 0 && IsTrimmable(s[|s| - 1]) then TrimEnd(s[..|s| - 1]) else s
  }

  /** `r` is the slice of `s` starting at `i`, and only trimmable characters
      stand before and after it. */
  predicate TrimmableAround(s: string, i: int, r: string) {
    && 0 <= i <= |s| - |r| && r == s[i..i + |r|]
    && (forall k :: 0 <= k < i ==> IsTrimmable(s[k]))
    && (forall k :: i + |r| <= k < |s| ==> IsTrimmable(s[k]))
  }

  /** `r` neither starts nor ends with a trimmable character. */
  predicate Untrimmable(r: string) {
    |r| > 0 ==> !IsTrimmable(r[0]) && !IsTrimmable(r[|r| - 1])
  }

  /** The number of trimmable characters `s` starts with. */
  function LeadingTrimmable(s: string): nat {
    |s| - |TrimStart(s)|
  }

  /** `s.trim()`: the slice of `s` between its leading and trailing
      trimmable characters, which neither starts nor ends with one. */
  function Trim(s: string): (r: string)
    ensures TrimmableAround(s, LeadingTrimmable(s), r)
    ensures Untrimmable(r)
  {
    var t := TrimStart(s);
    var r := TrimEnd(t);
    assert TrimmableAround(s, LeadingTrimmable(s), r);
    r
  }

  /** A string that neither starts nor ends with a trimmable character is
      its own trim. */
  lemma {:induction false} TrimOfTrimmed(s: string)
    requires Untrimmable(s)
    ensures Trim(s) == s
  {
  }

  /** Trimming twice is trimming once. */
  lemma TrimIdempotent(s: string)
    ensures Trim(Trim(s)) == Trim(s)
  {
    TrimOfTrimmed(Trim(s));
  }

  /** The form's values. Each field is absent until the user or the initial
      values set it. */
  datatype GeneralValues = GeneralValues(
    title: Option<string>,
    description: Option<string>,
    subjects: Option<seq<string>>,
    levels: Option<seq<string>>,
    types: Option<string>,
    numberOfHours: Option<nat>)

  /** What the panel hands to its `onSubmit`. */
  datatype GeneralUpdate = GeneralUpdate(title: string, description: Option<string>, publicData: PublicData)

  /** The form's initial values: title and description from the listing's
      attributes, the rest from its public data, absent when there is none. */
  function InitialValues(listing: Listing): (r: GeneralValues)
    ensures r.title == Some(listing.title) && r.description == Some(listing.description)
    ensures listing.publicData.None? ==>
      r.subjects.None? && r.levels.None? && r.types.None? && r.numberOfHours.None?
    ensures listing.publicData.Some? ==>
      var pd := listing.publicData.value;
      r.subjects == pd.subjects && r.levels == pd.levels && r.types == pd.types && r.numberOfHours == pd.numberOfHours
  {
    match listing.publicData
    case None => GeneralValues(Some(listing.title), Some(listing.description), None, None, None, None)
    case Some(pd) =>
      GeneralValues(Some(listing.title), Some(listing.description), pd.subjects, pd.levels, pd.types, pd.numberOfHours)
  }

  /** The panel's onSubmit: a missing title makes `title.trim()` throw;
      otherwise the title is trimmed, subjects and levels default to empty
      lists, and the description and the other fields pass through. */
  function SubmitValues(values: GeneralValues): (r: Result<GeneralUpdate>)
    ensures r.Err? <==> values.title.None?
    ensures r.Ok? ==>
      && r.value.title == Trim(values.title.value)
      && r.value.description == values.description
      && r.value.publicData.types == values.types
      && r.value.publicData.numberOfHours == values.numberOfHours
    ensures r.Ok? ==> r.value.publicData.subjects == (if values.subjects.Some? then values.subjects else Some([]))
    ensures r.Ok? ==> r.value.publicData.levels == (if values.levels.Some? then values.levels else Some([]))
  {
    match values.title
    case None => Err(TypeError("title is undefined"))
    case Some(title) =>
      var subjects := match values.subjects case None => [] case Some(s) => s;
      var levels := match values.levels case None => [] case Some(l) => l;
      Ok(GeneralUpdate(Trim(title), values.description,
        PublicData(Some(subjects), Some(levels), values.types, values.numberOfHours)))
  }

  /** Submitting the initial values unchanged writes back the listing's own
      data, when its title has no surrounding white space and its public
      data already holds both lists. */
  lemma UnchangedSubmitKeepsListing(listing: Listing)
    requires Untrimmable(listing.title)
    requires listing.publicData.Some? && listing.publicData.value.subjects.Some? && listing.publicData.value.levels.Some?
    ensures SubmitValues(InitialValues(listing)) == Ok(GeneralUpdate(listing.title, Some(listing.description), listing.publicData.value))
  {
    TrimOfTrimmed(listing.title);
  }

  /** A key the update leaves undefined: the listing's current value. */
  function Kept<T>(update: Option<T>, current: Option<T>): Option<T> {
    if update.Some? then update else current
  }

  /** The listing as the marketplace API would store a submitted update. The
      API is not part of this model; it is assumed to replace the title and
      each key the update defines, and, since an undefined key is dropped
      from the request, to keep the listing's current value for each key the
      update leaves undefined, in the attributes and in the public data alike. */
  function Saved(listing: Listing, update: GeneralUpdate): (r: Listing)
    ensures r.title == update.title
    ensures update.description.Some? ==> r.description == update.description.value
    ensures update.description.None? ==> r.description == listing.description
    ensures r.publicData.Some?
    ensures update.publicData.numberOfHours.Some? ==> r.publicData.value.numberOfHours == update.publicData.numberOfHours
    ensures update.publicData.numberOfHours.None? ==> r.publicData.value.numberOfHours == PricingEngine.SessionHour(listing)
    ensures r.id == listing.id && r.state == listing.state && r.price == listing.price
  {
    var current := if listing.publicData.Some? then listing.publicData.value else PublicData(None, None, None, None);
    var pd := update.publicData;
    listing.(title := update.title,
             description := if update.description.Some? then update.description.value else listing.description,
             publicData := Some(PublicData(
               Kept(pd.subjects, current.subjects),
               Kept(pd.levels, current.levels),
               Kept(pd.types, current.types),
               Kept(pd.numberOfHours, current.numberOfHours))))
  }

  /** The number of hours entered in this panel is, once saved, the session
      length the pricing engine reads from the listing; left empty, the
      engine goes on reading the listing's earlier value. */
  lemma SubmittedHoursReachEngine(listing: Listing, values: GeneralValues)
    requires values.title.Some?
    ensures values.numberOfHours.Some? ==>
      PricingEngine.SessionHour(Saved(listing, SubmitValues(values).value)) == values.numberOfHours
    ensures values.numberOfHours.None? ==>
      PricingEngine.SessionHour(Saved(listing, SubmitValues(values).value)) == PricingEngine.SessionHour(listing)
  {
  }
}
