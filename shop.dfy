/** The shop's per-product purchase filters. Times are microseconds since an
    epoch, the resolution of a datetime; the member's lab-access end date and
    the current time are parameters. */
module Shop {
  import opened Wrappers

  const MicrosPerDay: int := 86_400_000_000

  /** timedelta(days=30 * 9) */
  const Window: int := 30 * 9 * MicrosPerDay

  /** The one field of a cart item a filter reads. */
  datatype CartItem = CartItem(count: int)

  datatype BadRequest = BadRequest(message: string)

  const DateMessage: string :=
    "Starterpack can only be bought if you haven't had lab acccess during the last 9 months (30*9 days)."
  const CountMessage: string := "Bad item count in starterpack, should be 1."

  /** filter_start_package as written: `labaccessEnd` is the membership
      summary's labaccess_end, None when the member never had lab access. */
  function FilterStartPackage(item: CartItem, labaccessEnd: Option<int>, now: int): (r: Option<BadRequest>)
    ensures labaccessEnd.None? ==> r.None?
    ensures r == Some(BadRequest(DateMessage)) <==> labaccessEnd.Some? && labaccessEnd.value < now + Window
    ensures r == Some(BadRequest(CountMessage)) <==>
              labaccessEnd.Some? && now + Window <= labaccessEnd.value && item.count > 1
    ensures r.None? <==> labaccessEnd.None? || (now + Window <= labaccessEnd.value && item.count <= 1)
  {
    match labaccessEnd
    case None => None
    case Some(end) =>
      if end < now + Window then Some(BadRequest(DateMessage))
      else if item.count > 1 then Some(BadRequest(CountMessage))
      else None
  }

  /** As written, every member whose lab access has already ended is refused,
      however long ago it ended. */
  lemma AsWrittenRefusesPastAccess(item: CartItem, end: int, now: int)
    requires end <= now
    ensures FilterStartPackage(item, Some(end), now) == Some(BadRequest(DateMessage))
  {
  }

  /** As written, a member whose access runs for more than the window from now is accepted. */
  lemma AsWrittenAcceptsFutureAccess(end: int, now: int)
    requires now + Window <= end
    ensures FilterStartPackage(CartItem(1), Some(end), now).None?
  {
  }

  /** filter_start_package as its message describes it: refused when lab access
      lasted into the last 30*9 days (or still runs), then the count check. */
  function FilterStartPackageIntended(item: CartItem, labaccessEnd: Option<int>, now: int): (r: Option<BadRequest>)
    ensures labaccessEnd.None? ==> r.None?
    ensures r == Some(BadRequest(DateMessage)) <==> labaccessEnd.Some? && now - Window < labaccessEnd.value
    ensures r == Some(BadRequest(CountMessage)) <==>
              labaccessEnd.Some? && labaccessEnd.value <= now - Window && item.count > 1
    ensures r.None? <==> labaccessEnd.None? || (labaccessEnd.value <= now - Window && item.count <= 1)
  {
    match labaccessEnd
    case None => None
    case Some(end) =>
      if now - Window < end then Some(BadRequest(DateMessage))
      else if item.count > 1 then Some(BadRequest(CountMessage))
      else None
  }

  /** The instant t lies within the 30*9 days up to now. */
  predicate InLastWindow(now: int, t: int)
  {
    now - Window < t <= now
  }

  /** An access period that ends at `end` covers the instant t. */
  predicate HadAccessAt(end: int, t: int)
  {
    t <= end
  }

  /** The corrected filter refuses exactly those members who had lab access at
      some instant of the last window: an access period ending at `end` covers
      the instant t (now - Window < t <= now) iff now - Window < end. */
  lemma IntendedMatchesMessage(item: CartItem, end: int, now: int)
    ensures FilterStartPackageIntended(item, Some(end), now) == Some(BadRequest(DateMessage)) <==>
              exists t :: InLastWindow(now, t) && HadAccessAt(end, t)
  {
    if now - Window < end {
      var t := if end < now then end else now;
      assert InLastWindow(now, t) && HadAccessAt(end, t);
    }
  }

  /** The two readings disagree on a member whose access ended 1000 days ago
      and who buys one starter pack. */
  lemma InvertedDateTest(now: int)
    ensures FilterStartPackage(CartItem(1), Some(now - 1000 * MicrosPerDay), now) == Some(BadRequest(DateMessage))
    ensures FilterStartPackageIntended(CartItem(1), Some(now - 1000 * MicrosPerDay), now) == None
    ensures FilterStartPackage(CartItem(1), Some(now + 300 * MicrosPerDay), now) == None
    ensures FilterStartPackageIntended(CartItem(1), Some(now + 300 * MicrosPerDay), now) == Some(BadRequest(DateMessage))
  {
  }

  /** The date test is strict: an end date exactly on the boundary passes it,
      in both readings. */
  lemma BoundaryPasses(now: int)
    ensures FilterStartPackage(CartItem(1), Some(now + Window), now) == None
    ensures FilterStartPackageIntended(CartItem(1), Some(now - Window), now) == None
  {
  }

  /** Both checks fail: the date error is the one reported. */
  lemma DateCheckFirst(item: CartItem, end: int, now: int)
    requires item.count > 1
    ensures end < now + Window ==> FilterStartPackage(item, Some(end), now) == Some(BadRequest(DateMessage))
    ensures now - Window < end ==> FilterStartPackageIntended(item, Some(end), now) == Some(BadRequest(DateMessage))
  {
  }

  datatype ProductFilter = StartPackage

  /** PRODUCT_FILTERS */
  const ProductFilters: map<string, ProductFilter> := map["start_package" := StartPackage]

  /** PRODUCT_FILTERS holds exactly one filter, under "start_package". */
  lemma ProductFiltersKeys()
    ensures ProductFilters.Keys == {"start_package"}
    ensures ProductFilters["start_package"] == StartPackage
  {
  }

  /** Run the filter registered for a product's filter name, if any. */
  function CheckPurchase(filter: string, item: CartItem, labaccessEnd: Option<int>, now: int): (r: Option<BadRequest>)
    ensures filter != "start_package" ==> r.None?
    ensures filter == "start_package" ==> r == FilterStartPackageIntended(item, labaccessEnd, now)
  {
    if filter in ProductFilters then
      match ProductFilters[filter]
      case StartPackage => FilterStartPackageIntended(item, labaccessEnd, now)
    else None
  }
}
