/** One tab of the listing-edit wizard: which tab comes next, how the values a
    panel submits are normalised into a create or update call, and what happens
    once the call succeeds. The calls themselves and the navigation they cause
    are represented as data. */
module WizardTab {
  import opened Support
  import opened ListingData

  const AVAILABILITY: string := "availability"
  const GENERAL: string := "general"
  const LOCATION: string := "location"
  const PRICING: string := "pricing"
  const PHOTOS: string := "photos"

  /** The tabs this component can show, in wizard order. */
  const SUPPORTED_TABS: seq<string> := [GENERAL, LOCATION, PRICING, AVAILABILITY, PHOTOS]

  // The `type` path parameter of the listing-edit page.
  const LISTING_PAGE_PARAM_TYPE_NEW: string := "new"
  const LISTING_PAGE_PARAM_TYPE_DRAFT: string := "draft"

  /** Path parameters; a key that is absent is undefined. */
  type PathParams = map<string, string>

  /** The next tab: the one after the first occurrence of `tab`, clamped to the
      last tab; a tab that is not in the list is "found" at -1, so the next tab
      is the first. With no tabs at all the result is undefined. */
  function NextTab(tab: string, tabs: seq<string>): (r: Option<string>)
    ensures r.None? <==> |tabs| == 0
    ensures r.Some? ==> r.value in tabs
  {
    var found := FindIndex(tabs, s => s == tab);
    var nextTabIndex := if found.Some? then found.value + 1 else 0;
    if nextTabIndex < |tabs| then Some(tabs[nextTabIndex])
    else if |tabs| > 0 then Some(tabs[|tabs| - 1])
    else None
  }

  /** pathParamsToNextTab: every other parameter kept, `tab` replaced. */
  function PathParamsToNextTab(params: PathParams, tab: string, tabs: seq<string>): (r: PathParams)
    ensures forall k :: k != "tab" ==> (k in r <==> k in params)
    ensures forall k :: k != "tab" && k in params ==> r[k] == params[k]
    ensures NextTab(tab, tabs).Some? ==> "tab" in r && r["tab"] == NextTab(tab, tabs).value
    ensures NextTab(tab, tabs).None? ==> "tab" !in r
  {
    match NextTab(tab, tabs)
    case Some(next) => params["tab" := next]
    case None => params - {"tab"}
  }

  /** A tab followed by another tab leads to that one. */
  lemma NextOfInnerTab(tabs: seq<string>, i: nat)
    requires i + 1 < |tabs|
    requires forall j :: 0 <= j < i ==> tabs[j] != tabs[i]
    ensures NextTab(tabs[i], tabs) == Some(tabs[i + 1])
  {
    FindIndexIsFirst(tabs, s => s == tabs[i], i);
  }

  /** The last tab leads to itself. */
  lemma NextOfLastTab(tabs: seq<string>)
    requires |tabs| > 0
    requires forall j :: 0 <= j < |tabs| - 1 ==> tabs[j] != tabs[|tabs| - 1]
    ensures NextTab(tabs[|tabs| - 1], tabs) == Some(tabs[|tabs| - 1])
  {
    FindIndexIsFirst(tabs, s => s == tabs[|tabs| - 1], |tabs| - 1);
  }

  /** A tab that is not in the list leads to the first tab. */
  lemma NextOfUnknownTab(tab: string, tabs: seq<string>)
    requires |tabs| > 0 && tab !in tabs
    ensures NextTab(tab, tabs) == Some(tabs[0])
  {
  }

  /** No supported tab is listed twice: each differs from the others in its
      first or second character. */
  lemma SupportedTabsDistinct()
    ensures forall i, j :: 0 <= i < j < |SUPPORTED_TABS| ==> SUPPORTED_TABS[i] != SUPPORTED_TABS[j]
  {
    var t := SUPPORTED_TABS;
    assert t[0][0] == 'g' && t[1][0] == 'l' && t[2][0] == 'p' && t[3][0] == 'a' && t[4][0] == 'p';
    assert t[2][1] == 'r' && t[4][1] == 'h';
  }

  /** The wizard's own tabs lead from general to photos, which leads to itself. */
  lemma SupportedTabsSequence()
    ensures NextTab(GENERAL, SUPPORTED_TABS) == Some(LOCATION)
    ensures NextTab(LOCATION, SUPPORTED_TABS) == Some(PRICING)
    ensures NextTab(PRICING, SUPPORTED_TABS) == Some(AVAILABILITY)
    ensures NextTab(AVAILABILITY, SUPPORTED_TABS) == Some(PHOTOS)
    ensures NextTab(PHOTOS, SUPPORTED_TABS) == Some(PHOTOS)
  {
    var t := SUPPORTED_TABS;
    SupportedTabsDistinct();
    NextOfInnerTab(t, 0);
    NextOfInnerTab(t, 1);
    NextOfInnerTab(t, 2);
    NextOfInnerTab(t, 3);
    NextOfLastTab(t);
  }

  /** `img.imageId || img.id`: an upload is referred to by the id its upload
      returned, any other image by its own id. */
  function ImageRef(img: Image): ImageId {
    if img.imageId.Some? then SavedId(img.imageId.value) else img.id
  }

  /** imageIds: each image's reference, in order; a missing list stays missing. */
  function ImageIds(images: Option<seq<Image>>): (r: Option<seq<ImageId>>)
    ensures r.None? <==> images.None?
    ensures r.Some? ==> |r.value| == |images.value|
    ensures r.Some? ==> forall k :: 0 <= k < |r.value| ==> r.value[k] == ImageRef(images.value[k])
  {
    match images
    case None => None
    case Some(s) => Some(seq(|s|, k requires 0 <= k < |s| => ImageRef(s[k])))
  }

  /** Every reference ImageIds gives is a saved UUID unless the image is a
      pending upload without an `imageId`. */
  lemma ImageIdsAreSavedOrOwn(images: seq<Image>, k: nat)
    requires k < |images|
    ensures ImageIds(Some(images)).value[k].SavedId? || ImageIds(Some(images)).value[k] == images[k].id
    ensures images[k].imageId.Some? ==> ImageIds(Some(images)).value[k] == SavedId(images[k].imageId.value)
  {
  }

  /** The values a panel submits: its own fields, and the `images` key, which
      may be undefined (None), null (Some(None)) or a list. */
  datatype PanelValues<V> = PanelValues(fields: V, images: Option<Option<seq<Image>>>)

  /** The `id` key of an update: absent, or set to the current listing's id
      (itself possibly null). */
  datatype IdField = NoIdKey | IdKey(id: Option<Uuid>)

  /** The values sent to the API. */
  datatype ListingUpdate<V> = ListingUpdate(fields: V, images: Option<Option<seq<ImageId>>>, id: IdField)

  /** The normalised values: the `images` key appears only when the panel's
      `images` was defined, and then holds the image references. */
  function WithImages<V>(values: PanelValues<V>): (r: ListingUpdate<V>)
    ensures r.images.Some? <==> values.images.Some?
    ensures r.images.Some? ==> r.images.value == ImageIds(values.images.value)
    ensures r.fields == values.fields && r.id == NoIdKey
  {
    var imageProperty := if values.images.Some? then Some(ImageIds(values.images.value)) else None;
    ListingUpdate(values.fields, imageProperty, NoIdKey)
  }

  /** The API call a completed tab makes. */
  datatype Upsert<V> =
    | CreateDraft(values: ListingUpdate<V>)
    | UpdateDraft(tab: string, values: ListingUpdate<V>)
    | UpdateListing(tab: string, values: ListingUpdate<V>)

  function ParamType(params: PathParams): Option<string> {
    if "type" in params then Some(params["type"]) else None
  }

  predicate IsNewUri(params: PathParams) {
    ParamType(params) == Some(LISTING_PAGE_PARAM_TYPE_NEW)
  }

  predicate IsDraftUri(params: PathParams) {
    ParamType(params) == Some(LISTING_PAGE_PARAM_TYPE_DRAFT)
  }

  /** onCompleteEditTeacherListingWizardTab, up to the call it makes: a new
      listing is created as a draft without an id; a draft, and a listing
      edited outside the creation flow, are updated under the current
      listing's id. The fields and images are the normalised ones in all three. */
  function CompleteTab<V>(params: PathParams, currentListingId: Option<Uuid>, tab: string, values: PanelValues<V>): (r: Upsert<V>)
    ensures IsNewUri(params) ==> r.CreateDraft? && r.values.id == NoIdKey
    ensures IsDraftUri(params) ==> r.UpdateDraft? && r.tab == tab && r.values.id == IdKey(currentListingId)
    ensures !IsNewUri(params) && !IsDraftUri(params) ==>
      r.UpdateListing? && r.tab == tab && r.values.id == IdKey(currentListingId)
    ensures r.values.fields == values.fields && r.values.images == WithImages(values).images
  {
    var updateValuesWithImages := WithImages(values);
    if IsNewUri(params) then CreateDraft(updateValuesWithImages)
    else if IsDraftUri(params) then UpdateDraft(tab, updateValuesWithImages.(id := IdKey(currentListingId)))
    else UpdateListing(tab, updateValuesWithImages.(id := IdKey(currentListingId)))
  }

  datatype Navigation = Replace(params: PathParams) | Push(params: PathParams)

  /** redirectAfterDraftUpdate: the path becomes a draft path for the saved
      listing, replacing a "new" path in the history, and then the next tab's
      path is pushed. */
  function RedirectAfterDraftUpdate(listingId: string, params: PathParams, tab: string, tabs: seq<string>): (r: seq<Navigation>)
    ensures |r| == (if IsNewUri(params) then 2 else 1)
    ensures IsNewUri(params) ==> r[0] == Replace(params["type" := LISTING_PAGE_PARAM_TYPE_DRAFT]["id" := listingId])
    ensures r[|r| - 1].Push?
    ensures var pushed := r[|r| - 1].params;
      && "type" in pushed && pushed["type"] == LISTING_PAGE_PARAM_TYPE_DRAFT
      && "id" in pushed && pushed["id"] == listingId
      && (NextTab(tab, tabs).Some? ==> "tab" in pushed && pushed["tab"] == NextTab(tab, tabs).value)
    ensures var pushed := r[|r| - 1].params;
      forall k :: k != "type" && k != "id" && k != "tab" ==>
        (k in pushed <==> k in params) && (k in params ==> pushed[k] == params[k])
  {
    var currentPathParams := params["type" := LISTING_PAGE_PARAM_TYPE_DRAFT]["id" := listingId];
    var push := Push(PathParamsToNextTab(currentPathParams, tab, tabs));
    if IsNewUri(params) then [Replace(currentPathParams), push] else [push]
  }

  /** What follows a successful create or update in the creation flow. */
  datatype AfterSave = Redirect(navigations: seq<Navigation>) | Publish(listingId: Option<Uuid>)

  /** Publish on the last tab, otherwise move on to the next tab. */
  function AfterUpsert(savedId: string, params: PathParams, currentListingId: Option<Uuid>, tab: string, tabs: seq<string>): (r: AfterSave)
    ensures r.Publish? <==> |tabs| > 0 && tab == tabs[|tabs| - 1]
    ensures r.Publish? ==> r.listingId == currentListingId
    ensures r.Redirect? ==> r.navigations == RedirectAfterDraftUpdate(savedId, params, tab, tabs)
  {
    if |tabs| > 0 && tab == tabs[|tabs| - 1] then Publish(currentListingId)
    else Redirect(RedirectAfterDraftUpdate(savedId, params, tab, tabs))
  }

  /** Saving an inner tab of the creation flow ends on the next tab's draft
      path for the saved listing. */
  lemma SavingInnerTabMovesToNextTab(savedId: string, params: PathParams, currentListingId: Option<Uuid>, tabs: seq<string>, i: nat)
    requires i + 1 < |tabs|
    requires forall j :: 0 <= j < |tabs| && j != i ==> tabs[j] != tabs[i]
    ensures var r := AfterUpsert(savedId, params, currentListingId, tabs[i], tabs);
      && r.Redirect?
      && var pushed := r.navigations[|r.navigations| - 1].params;
      && pushed["tab"] == tabs[i + 1] && pushed["id"] == savedId && pushed["type"] == LISTING_PAGE_PARAM_TYPE_DRAFT
  {
    NextOfInnerTab(tabs, i);
    assert tabs[|tabs| - 1] != tabs[i];
  }
}
