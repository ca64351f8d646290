# Teacher marketplace booking core, in Dafny

This project models the booking and listing-editing core of a marketplace where
teachers list lessons and customers book them:

- **Pricing engine** (`pricing_engine.dfy`). It turns a listing and a booking
  window into three line items:
  - a booking priced by quantity, where the quantity is the listing's session
    length in hours when one is set, and otherwise the number of nights between
    the dates;
  - a provider commission of -25 % of the booking total;
  - a customer commission of -15 % of the customer's total.
- **Booking form** (`booking_dates_form.dfy`). From the chosen day and the start
  and end hours it builds the window sent to the engine. JavaScript's `Date` is
  a class here (`calendar.dfy`), so the form moving the caller's own date object
  in place is part of the model. The form also derives the session length and
  the one end-time option it offers.
- **Booking breakdown** (`booking_breakdown.dfy` and the `line_item_*.dfy`
  files). These decide the order of the receipt's rows and the booking period
  shown. They also cover the units row, which makes the whole breakdown throw
  when the unit type is units and no units line item exists, the commission
  refunds shown to each party, and when the
  commission note appears.
- **Listing wizard tab** (`wizard_tab.dfy`). This covers:
  - which tab comes next;
  - how submitted values are normalised into a create-draft, update-draft or
    update call;
  - the navigation or publishing that follows a save.
- **Photos panel** (`photos_panel.dfy`). Its loop pushes each uploaded image's
  uuid onto the main-photo or other-photo array. Those arrays are objects
  shared with the listing's public data, so a submit changes the listing the
  panel was given.
- **General panel** (`general_panel.dfy`). It reads the form's initial values
  from the listing. On submit it applies JavaScript `trim` to the title,
  defaults `subjects` and `levels` to empty lists, and packs the remaining
  fields into public data.

JavaScript behaviour is modelled explicitly:

- `undefined` keys are `None` or an absent map key;
- truthiness of an optional count treats 0 and "missing" alike;
- reading a property of `undefined`, or calling a method that does not exist, is
  an `Err(TypeError(..))` result;
- `Array.prototype.find` and `findIndex` are `Support.FindIndex`, which returns
  the first match.

Money is an integer in minor units.

## Model

| member | source | states |
|---|---|---|
| Support.FindIndex | src/components/EditTeacherListingWizard/EditTeacherListingWizardTab.js:41 | `findIndex`/`find`: a found index is in range, satisfies the predicate and no earlier element does; nothing is found exactly when no element satisfies it |
| Calendar.WithHours | src/forms/TeacherBookingDatesForm/TeacherBookingDatesForm.js:78 | `setHours(h)` lands `h` hours after the start of the date's day. Hours past 23 carry into later days, and the resulting hour is always below 24 |
| Calendar.Date.Copy | src/forms/TeacherBookingDatesForm/TeacherBookingDatesForm.js:78-84 | `new Date(d)` is a fresh object holding the same instant |
| Calendar.Date.SetHours | src/forms/TeacherBookingDatesForm/TeacherBookingDatesForm.js:78 | the date object itself is moved to `WithHours` of its old value |
| Calendar.Date.AdvanceOneDay | src/forms/TeacherBookingDatesForm/TeacherBookingDatesForm.js:80-81 | `setDate(getDate() + 1)` moves the object one day on, keeping the hour |
| LineItemTypes.FirstReversal | src/components/TeacherBookingBreakdown/TeacherLineItemProviderCommissionRefundMaybe.js:11-13 | the first reversal line item with the given code, or none exactly when no item is such a reversal |
| LineItemHelpers.TotalFromLineItems | server/api-util/lineItems.js:62 | a total exists exactly when every item has a line total |
| LineItemHelpers.CustomerItems | server/api-util/lineItems.js:69 | every item kept is included for the customer, and no more items are kept than were given |
| LineItemHelpers.CustomerItemsCounts | server/api-util/lineItems.js:69 | each item included for the customer is kept exactly as often as it occurs in the input, and no other item is kept |
| LineItemHelpers.CustomerItemsOfAppend | server/api-util/lineItems.js:69 | the filter keeps the order: the customer items of two lists put together are those of the first list followed by those of the second |
| LineItemHelpers.TotalForCustomer | server/api-util/lineItems.js:69 | `calculateTotalForCustomer` gives a total exactly when every item included for the customer has a line total |
| LineItemHelpers.TotalForCustomerOfAppend | server/api-util/lineItems.js:69 | the customer total of two item lists put together is the sum of their customer totals |
| LineItemHelpers.QuantityFromDates | server/api-util/lineItems.js:51 | the quantity is the number of days that takes the start date's day to the end date's day |
| LineItemHelpers.TotalOfAppend | server/api-util/lineItems.js:62 | the total of two item lists put together is the sum of their totals |
| LineItemHelpers.CustomerTotalOfCustomerItems | server/api-util/lineItems.js:67-69 | for items all included for the customer, the customer total equals the plain total |
| LineItemHelpers.TotalOfQuantityItem | server/api-util/lineItems.js:60-62 | the total of one quantity-priced item is its unit price times its quantity |
| PricingEngine.TransactionLineItems | server/api-util/lineItems.js:32-76 | three line items, within the limit of 50, in the order booking, provider commission, customer commission. Each has exactly one pricing method, with no line total and no reversal. The booking is priced by quantity at the listing's price; the commissions are the percentages -25 and -15, both deductions; `includeFor` is customer and provider for the booking, and the matching single role for each commission |
| PricingEngine.SessionHourOverridesDates | server/api-util/lineItems.js:48-58 | with a truthy `numberOfHours` the booking quantity is that number, and the booking window has no effect on the line items |
| PricingEngine.DatesGiveQuantity | server/api-util/lineItems.js:48-52 | without a truthy `numberOfHours` the quantity is the day count between the window's dates |
| PricingEngine.CommissionsPricedOnBookingTotal | server/api-util/lineItems.js:60-72 | the provider commission's unit price is the booking total, price times quantity, and the customer commission's unit price is the same amount |
| PricingEngine.RolesSeeTheirCommissionOnly | server/api-util/lineItems.js:48-72 | the provider sees exactly the booking and the provider commission; the customer sees exactly the booking and the customer commission |
| BookingDatesForm.DateTimeBooking | src/forms/TeacherBookingDatesForm/TeacherBookingDatesForm.js:73-87 | no window without a date. The start is the date moved to the start hour, or the date itself when no start hour is set. The end is the day after the start, moved to the end hour when one is set, so its day is one day plus `to / 24` days after the start |
| BookingDatesForm.GetDateTimeBooking | src/forms/TeacherBookingDatesForm/TeacherBookingDatesForm.js:73-87 | on Date objects: both results are null for a null date. Otherwise the results hold `DateTimeBooking` of the date's old value, and the caller's date is left at the start. Without a start hour the start is the caller's own object; otherwise it is a fresh one. The end is always fresh |
| BookingDatesForm.HandleOnChange | src/forms/TeacherBookingDatesForm/TeacherBookingDatesForm.js:54-71 | line items are requested exactly when a date is chosen and no request is in progress, and the request carries the form's window. The chosen date object is left moved to the start hour when one is set, and is otherwise unchanged |
| BookingDatesForm.HandleFormSubmit | src/forms/TeacherBookingDatesForm/TeacherBookingDatesForm.js:41-48 | with a date the window is submitted, and the date object is left moved to the start hour when one is set; without a date the handler throws, because the form values have no `preventDefault` |
| BookingDatesForm.SessionHour | src/forms/TeacherBookingDatesForm/TeacherBookingDatesForm.js:136 | the read throws exactly for a listing without public data. Otherwise the session length is the engine's truthy `numberOfHours`, or 8, and is at least 1 |
| BookingDatesForm.EndTimeOption | src/forms/TeacherBookingDatesForm/TeacherBookingDatesForm.js:265-279 | an end option is offered exactly when a start hour is set and the sum is not 0, and it lies the session length after the start |
| BookingDatesForm.FormSessionIsEngineQuantity | src/forms/TeacherBookingDatesForm/TeacherBookingDatesForm.js:136 | with a truthy `numberOfHours`, the form's session length is the engine's booking quantity |
| BookingDatesForm.FormWindowNights | src/forms/TeacherBookingDatesForm/TeacherBookingDatesForm.js:78-84 | a window built by the form spans 1 + `to / 24` nights, and that is the engine's quantity when it prices by dates |
| BookingDatesForm.DefaultSessionIsOneNight | src/forms/TeacherBookingDatesForm/TeacherBookingDatesForm.js:136-137 | without a session length, the only start option is 8 and the end option is 16, and that window is priced as one night |
| LineItemUnits.UnitsQuantity | src/components/TeacherBookingBreakdown/TeacherLineItemUnitsMaybe.js:7-22 | no row unless the unit type is units. With that type, it fails with "line item missing" exactly when no non-reversal item of that code exists; otherwise the row is always shown, with the first such item's quantity |
| ProviderCommissionRefund.RefundAmount | src/components/TeacherBookingBreakdown/TeacherLineItemProviderCommissionRefundMaybe.js:8-22 | a row exactly when the viewer is the provider and a provider-commission reversal exists; it shows the first such reversal's line total |
| CustomerCommissionRefund.RefundAmount | src/components/TeacherBookingBreakdown/TeacherLineItemCustomerCommissionRefundMaybe.js:8-22 | a row exactly when the viewer is the customer and a customer-commission reversal exists; it shows the first such reversal's line total |
| LineItemBookingPeriod.BookingPeriod | src/components/TeacherBookingBreakdown/TeacherLineItemBookingPeriod.js:58-75 | the display start wins over the start, and likewise for the end. A nightly booking shows its end as is; any other booking shows the day before. The long weekday format is used exactly when the date type is `date`. The date format is always short month and numeric day |
| LineItemBookingPeriod.OneDayBookingShownAsOneDay | src/components/TeacherBookingBreakdown/TeacherLineItemBookingPeriod.js:69-70 | for a booking from a start to the same hour one day later, the start is shown as is. A non-nightly unit shows the start day as the end day; a nightly unit shows the next day |
| BookingBreakdown.RoleFlagsOf | src/components/TeacherBookingBreakdown/TeacherBookingBreakdown.js:41-42 | customer exactly for role "customer", provider exactly for role "provider", never both |
| BookingBreakdown.CommissionLineItem | src/components/TeacherBookingBreakdown/TeacherBookingBreakdown.js:44-48 | a found item is not a reversal and carries the viewer's own commission code; nothing is found for any other role |
| BookingBreakdown.CommissionNoteShownIff | src/components/TeacherBookingBreakdown/TeacherBookingBreakdown.js:44-48 | the lookup finds an item exactly when some item is the viewer's own non-reversed commission |
| BookingBreakdown.Layout | src/components/TeacherBookingBreakdown/TeacherBookingBreakdown.js:89-134 | the rows shown are exactly those the eleven components and the fee note render, in the component's fixed order, with the booking period first; the commission note is present exactly when asked for |
| BookingBreakdown.LayoutShowsParts | src/components/TeacherBookingBreakdown/TeacherBookingBreakdown.js:91-125 | the units row and the two commission-refund rows are shown exactly when their components render them, holding what those components show |
| BookingBreakdown.LayoutShowsUnseen | src/components/TeacherBookingBreakdown/TeacherBookingBreakdown.js:94-130 | the base-price, unknown-items, subtotal, refund, customer-commission, provider-commission and total rows are each shown exactly when their component renders |
| BookingBreakdown.Breakdown | src/components/TeacherBookingBreakdown/TeacherBookingBreakdown.js:29-134 | the breakdown fails exactly when the units row fails, with its missing-line-item error. Otherwise its rows are in order and start with the booking period. The units row is there exactly when the units component shows a quantity, and holds it. Each refund row is there exactly when its component, given the viewer's own customer or provider flag, shows an amount, and holds it. Each row drawn by a component outside this model is there exactly when that component renders. The commission note appears exactly when the viewer's commission line item exists |
| WizardTab.NextTab | src/components/EditTeacherListingWizard/EditTeacherListingWizardTab.js:40-45 | a next tab exists exactly when the tab list is not empty, and it is one of the tabs |
| WizardTab.PathParamsToNextTab | src/components/EditTeacherListingWizard/EditTeacherListingWizardTab.js:40-47 | every other path parameter is kept unchanged; `tab` becomes the next tab |
| WizardTab.NextOfInnerTab | src/components/EditTeacherListingWizard/EditTeacherListingWizardTab.js:41-44 | a tab that is followed by another tab, and appears nowhere earlier, leads to that next tab |
| WizardTab.NextOfLastTab | src/components/EditTeacherListingWizard/EditTeacherListingWizardTab.js:42-45 | the last tab, appearing only there, leads to itself |
| WizardTab.NextOfUnknownTab | src/components/EditTeacherListingWizard/EditTeacherListingWizardTab.js:41-44 | a tab not in the list is found at -1 and so leads to the first tab |
| WizardTab.SupportedTabsDistinct | src/components/EditTeacherListingWizard/EditTeacherListingWizardTab.js:32-38 | no supported tab appears twice |
| WizardTab.SupportedTabsSequence | src/components/EditTeacherListingWizard/EditTeacherListingWizardTab.js:32-47 | general leads to location, then pricing, then availability, then photos, and photos leads to itself |
| WizardTab.ImageIds | src/components/EditTeacherListingWizard/EditTeacherListingWizardTab.js:102-104 | a missing list stays missing; otherwise each image maps, in order, to its `imageId` or else its own id |
| WizardTab.ImageIdsAreSavedOrOwn | src/components/EditTeacherListingWizard/EditTeacherListingWizardTab.js:103 | an upload is referred to by its `imageId`, and every other image by its own id |
| WizardTab.WithImages | src/components/EditTeacherListingWizard/EditTeacherListingWizardTab.js:106-112 | the `images` key is present exactly when the panel submitted one, and then holds the image references; the other fields pass through |
| WizardTab.CompleteTab | src/components/EditTeacherListingWizard/EditTeacherListingWizardTab.js:96-140 | a "new" path creates a draft without an id. A "draft" path updates the draft under the current listing's id. Any other path updates the listing under that id. The normalised fields and images are sent in all three |
| WizardTab.RedirectAfterDraftUpdate | src/components/EditTeacherListingWizard/EditTeacherListingWizardTab.js:49-69 | a "new" path is first replaced by the draft path of the saved listing. Then a path is pushed whose type is draft, whose id is the saved id and whose tab is the next tab; every other path parameter, such as the slug, is kept |
| WizardTab.AfterUpsert | src/components/EditTeacherListingWizard/EditTeacherListingWizardTab.js:123-134 | publishing the current listing happens exactly on the last tab; every other tab redirects |
| WizardTab.SavingInnerTabMovesToNextTab | src/components/EditTeacherListingWizard/EditTeacherListingWizardTab.js:123-131 | saving an inner tab ends on the next tab's draft path for the saved listing |
| ListingData.PanelTitleOf | src/components/EditListingGeneralPanel/EditListingGeneralPanel.js:33-41 | a panel shows the listing's title exactly when the listing has an id and is not a draft |
| PhotosPanel.UuidArray.constructor | src/components/EditListingPhotosPanel/EditListingPhotosPanel.js:38 | a new array is empty |
| PhotosPanel.UuidArray.Push | src/components/EditListingPhotosPanel/EditListingPhotosPanel.js:73-75 | `push` appends one uuid at the end |
| PhotosPanel.PhotoArrays | src/components/EditListingPhotosPanel/EditListingPhotosPanel.js:37-38 | the listing's own arrays when its public data holds them, otherwise fresh empty arrays, so the two are distinct unless the listing holds both |
| PhotosPanel.BeforeFirst | src/components/EditListingPhotosPanel/EditListingPhotosPanel.js:52 | `split(sep)[0]` is the longest prefix free of the separator, followed by the separator whenever it is shorter than the whole string |
| PhotosPanel.MainImgIff | src/components/EditListingPhotosPanel/EditListingPhotosPanel.js:51-53 | `isMainImg` (the predicate `IsMainImg`): for a main photo type without an underscore, an id is main exactly when it is that type, or that type followed by an underscore |
| PhotosPanel.Processed | src/components/EditListingPhotosPanel/EditListingPhotosPanel.js:70-78 | the loop gets through every image before the first saved image that carries an `imageId`, and stops at that image |
| PhotosPanel.PartitionIsExact | src/components/EditListingPhotosPanel/EditListingPhotosPanel.js:70-78 | where the loop does not throw, the uuids pushed onto the two arrays are, as a multiset, exactly the uuids of the images that have an `imageId` |
| PhotosPanel.PartitionCount | src/components/EditListingPhotosPanel/EditListingPhotosPanel.js:70-78 | the two arrays together grow by exactly the number of images that have an `imageId` |
| PhotosPanel.MainUuidsComeFromMainImages | src/components/EditListingPhotosPanel/EditListingPhotosPanel.js:71-74 | every uuid pushed onto the main array is the `imageId` of an upload whose id is main |
| PhotosPanel.OtherUuidsComeFromOtherImages | src/components/EditListingPhotosPanel/EditListingPhotosPanel.js:71-76 | every uuid pushed onto the other array is the `imageId` of an upload whose id is not main |
| PhotosPanel.PushUpload | src/components/EditListingPhotosPanel/EditListingPhotosPanel.js:70-78 | for one image, the callback pushes an upload's uuid onto the array its id selects and skips an image without `imageId`. A saved image with an `imageId` throws and pushes nothing |
| PhotosPanel.Partition | src/components/EditListingPhotosPanel/EditListingPhotosPanel.js:70-78 | the loop completes exactly when no image throws. Each array is its old contents followed by the uuids pushed onto it, in image order, up to the image that throws. Nothing is removed |
| PhotosPanel.OnSubmit | src/components/EditListingPhotosPanel/EditListingPhotosPanel.js:67-87 | the submit succeeds exactly when no image throws. It then passes on the images, without `addImage`, together with the two arrays as they are after the pushes |
| PhotosPanel.SubmitChangesListingArrays | src/components/EditListingPhotosPanel/EditListingPhotosPanel.js:37-86 | rendering for a listing and submitting succeeds exactly when no image throws. Each array the listing's public data holds gets the uuids pushed onto it appended in place, up to the image that throws. On success the submitted arrays are the listing's earlier contents, or empty, followed by all the main or other uploads |
| GeneralPanel.TrimStart | src/components/EditListingGeneralPanel/EditListingGeneralPanel.js:62 | removes exactly the leading run of JavaScript white space and line terminators; the rest is a suffix of the input |
| GeneralPanel.TrimEnd | src/components/EditListingGeneralPanel/EditListingGeneralPanel.js:62 | removes exactly the trailing run of JavaScript white space and line terminators; the rest is a prefix of the input |
| GeneralPanel.Trim | src/components/EditListingGeneralPanel/EditListingGeneralPanel.js:62 | `trim()` is the slice of the input that starts after its leading trimmable characters, has only trimmable characters after it, and neither starts nor ends with one |
| GeneralPanel.TrimOfTrimmed | src/components/EditListingGeneralPanel/EditListingGeneralPanel.js:62 | a title with no surrounding white space is unchanged by trimming |
| GeneralPanel.TrimIdempotent | src/components/EditListingGeneralPanel/EditListingGeneralPanel.js:62 | trimming twice is trimming once |
| GeneralPanel.InitialValues | src/components/EditListingGeneralPanel/EditListingGeneralPanel.js:31-57 | title and description come from the listing. The four public-data fields come from its public data, and all are missing when it has none |
| GeneralPanel.SubmitValues | src/components/EditListingGeneralPanel/EditListingGeneralPanel.js:59-68 | the submit throws exactly when the title is missing. Otherwise the title is trimmed, the description passes through, missing subjects and levels become empty lists, and types and hours pass into public data unchanged |
| GeneralPanel.UnchangedSubmitKeepsListing | src/components/EditListingGeneralPanel/EditListingGeneralPanel.js:57-64 | submitting the initial values unchanged writes back the listing's own title, description and public data, provided the title has no surrounding white space and both lists are set |
| GeneralPanel.SubmittedHoursReachEngine | src/components/EditListingGeneralPanel/EditListingGeneralPanel.js:64 | once saved, a number of hours submitted here is exactly what the pricing engine reads as the session length; left empty, the engine reads the listing's earlier value |

## Left out

- Rendering is left out: JSX, `FormattedMessage`, `FormattedDate`, `formatMoney` and CSS classes. Only the decisions behind what is shown are modelled.
- Money has no currency. Amounts are integers in minor units, and the form's checks for a missing price and an invalid currency are left out.
- The line-item helper file (`lineItemHelpers`) is not part of this model. Its functions are given the meanings their names and the engine's doc comment state.
- LineItemHelpers.TotalFromLineItems: totals are computed for quantity-priced and seats-times-units items. Percentage items and their rounding have no line total here.
- LineItemHelpers.QuantityFromDates: taken to be the difference in calendar days. The unit type argument is left out, since the engine always passes nightly.
- Calendar.WithHours: dates are a day and an hour. Minutes, seconds, time zones and daylight-saving changes are left out.
- BookingDatesForm.StartTimeOptions: the option generator `getStartTimeOptions` is not part of this model. Its result is a parameter. The choice at line 137 of TeacherBookingDatesForm.js has no contract of its own; DefaultSessionIsOneNight states its default case.
- BookingDatesForm.SessionHour: the form coerces `numberOfHours` with `+`, while the general form stores the raw input and the engine uses it as-is. The model keeps it as a natural number throughout, so a non-numeric or string value is not modelled.
- BookingDatesForm.HandleOnChange: the listing id and the own-listing flag are passed through to the request unchanged, and are left out. So are the estimated-breakdown flag, the spinner and the error message.
- The booking form's `focusedInput` component state and its `FormSpy` subscriptions are React machinery and are left out.
- BookingBreakdown.Breakdown: the rows for base price, unknown items, subtotal, refund, the two commissions and the total come from components that are not part of this model. Whether each one shows is an input.
- LineItemBookingPeriod.BookingPeriod: the value of `DATE_TYPE_DATE` lives in a file that is not part of this model, and is taken to be "date".
- PhotosPanel.OnSubmit: the value of `MAIN_PHOTO_TYPE` lives in a file that is not part of this model, so it is a parameter.
- The photos panel's upload, reorder and remove callbacks, which it hands to the form, are left out.
- WizardTab.CompleteTab: the API calls are data. The promise's rejection branch, which does nothing, is not modelled, and neither is the smooth-scroll callback.
- WizardTab.RedirectAfterDraftUpdate: the history entries hold path parameters. Building the URI from the route table is not part of this model.
- The wizard's choice of panel by tab, the panel properties it passes, and the global `config.bookingUnitType` it sets on the pricing tab are rendering and configuration concerns, and are left out.
- GeneralPanel.Saved: the marketplace API that stores an update is not part of this model. Saved stands for it, assuming the API replaces the title and each key the update defines, and keeps the current value of each key the update leaves undefined. It models no line of the source, so it has no row above.
- PhotosPanel.SubmitChangesListingArrays: a listing whose main-photo and other-photo arrays are one shared object is not modelled; the pushes then interleave in a single array.
- `ensureListing` and `ensureOwnListing` fill in an empty listing. The model takes the listing as already filled in.
