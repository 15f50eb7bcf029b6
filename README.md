# KoreaEstateQuery data gathering, modelled in Dafny

This project models the data-gathering layer of KoreaEstateQuery: the code
that turns a place name into a table of apartment and officetel listings,
each annotated with how many amenities of every category lie nearby.

- `gathering_data/util.py`: the request layer and the parsers.
  - The service's JSON becomes regions, sectors, amenities (`NNeighbor`)
    and listings (`NThing`).
  - Listings are swept over every direction and amenities over every
    category.
  - Amenities are counted per listing within per-category radii.
  - Preschool and daycare names that extend another name are suppressed
    (`filter_item`).
  - Many sector lookups are scheduled with rate limiting and partial
    failure (`get_sector_list`).
  - Lists are cut into chunks (`split_list`).
- `gathering_data/data_gatherer.py`: the `NaverRECrawler` facade.
  - Coordinates come from a file table, then a fallback table.
  - The search chains the lookups.
  - Prices are converted from 10,000 won to 100,000,000 won.

Modules, one per concern:

| file | module | models |
|---|---|---|
| common.dfy | Common | Python exceptions as `Error`, `Result`/`Option`, decoded JSON as `Value`, Python's `in`, `[]`, `len`, `== 0` on JSON values |
| model.dfy | Model | the records (`NLocation`, `NRegion`, `NSector`, `NThing`, `NNeighbor`, `NAddon`) and `Env`, the collaborators taken as parameters |
| near_duplicate.dfy | NearDuplicate | `filter_item` and its preschool/daycare condition |
| chunking.dfy | Chunking | `split_list` |
| scheduling.dfy | Scheduling | `make_param_sector`, `parse_sector`, `get_sector`, `get_sector_list` |
| parsing.dfy | Parsing | `parse_region`, `parse_neighbor`, `parse_things` |
| proximity.dfy | Proximity | `get_distance_standard`, `update_things_intersection` |
| fetching.dfy | Fetching | `make_param_thing`, `get_things`, `get_things_each_direction`, `get_neighborhood`, `get_all_neighbors` |
| crawler.dfy | Crawler | `NaverRECrawler`: coordinate tables, `get_coordinates`, `search_location`, `_get_real_estate_data` and its price conversion |

Code that updates things step by step is written as methods with loops,
each proved equal to a specification function:

- the append loops of the parsers (`Collect`);
- the pop-and-remove loop of `filter_item`;
- the `while` loop of `split_list`;
- the scheduler loop;
- the sweeps over directions and categories;
- the in-place update of the listings, on an `array<Thing>`;
- the price-column loop.

The properties are proved about those specification functions as lemmas.

Exceptions are `Failure` values. Every `raise`, `KeyError` and `TypeError`
the Python code can hit on a malformed answer is a modelled error path, not
a precondition.

Behaviours of the code worth knowing before reading the contracts:

- **Missing radius.** `update_things_intersection` indexes
  `standard[nei.type]`, so an amenity category with no radius in the
  distance standard raises `KeyError` (`Proximity.AroundOf`,
  `Proximity.UpdateThingsIntersection`).
- **Incomplete listing records.** `parse_things` skips only records that
  lack both minimum prices or that report zero offers. Any other missing
  field raises `KeyError` and aborts the whole parse. A record with a
  lease price but no deal price is one such case
  (`Parsing.LeaseOnlyRecordAborts`).
- **No pagination.** Listings are fetched with one request per direction
  (`Fetching.ThingsEachDirection`).
- **A dict or a string as the listing answer.** `for v in results` then
  visits keys or characters, which the first skip rule tests as
  substrings: the parse gives `[]` unless a key contains a price name,
  and then fails with `TypeError` (`Parsing.ThingsOfDict`,
  `Parsing.ThingsOfString`).
- **A negative delay in the scheduler.** `sleep(delay)` sits inside the
  `try`. When it raises, the region whose sector was just appended is
  also cancelled, and the counter is never reset
  (`Scheduling.RunSleepRaises`, `Scheduling.RunSleepRaisesAt`).

## Model

| member | source | states |
|---|---|---|
| NearDuplicate.SortDesc | gathering_data/util.py:252 | `sorted(list, key, reverse=True)` returns a permutation of its input |
| NearDuplicate.SortDescDescending | gathering_data/util.py:252 | the sorted list has non-increasing keys |
| NearDuplicate.RemoveFirstAfter | gathering_data/util.py:258 | `items.remove(it)` drops the first element equal to `it` and nothing else |
| NearDuplicate.RemoveRelated | gathering_data/util.py:256-258 | the inner `for it in items[:]` loop leaves exactly the remaining items the popped item does not relate to, in their order |
| NearDuplicate.FilterItem | gathering_data/util.py:251-260 | the result is the pop-and-remove loop over the descending sort; it is a sub-multiset of the input; its keys are non-decreasing; no item is related to an item emitted after it; every input item missing from the output is related to by an emitted item |
| NearDuplicate.FilterItemProperties | gathering_data/util.py:251-260 | the sub-multiset, order, no-forward-pair and coverage properties, stated of the specification of `filter_item` |
| NearDuplicate.SuppressSubMultiset | gathering_data/util.py:253-259 | the while loop only emits items it popped from `items` |
| NearDuplicate.SuppressNonDecreasing | gathering_data/util.py:253-259 | popping from the tail of a descending list emits keys in non-decreasing order |
| NearDuplicate.SuppressNoForwardPair | gathering_data/util.py:255-258 | an emitted item relates to no item emitted after it, because those were removed |
| NearDuplicate.SuppressCovers | gathering_data/util.py:255-258 | an item is dropped only when an emitted item relates to it |
| NearDuplicate.SuppressIndependent | gathering_data/util.py:253-259 | on items no two of which are related, nothing is removed and the items come out in reverse order |
| NearDuplicate.OutputIndependent | gathering_data/util.py:251-260 | when related items always have smaller keys, the output holds no related pair in either order |
| NearDuplicate.FilterIdempotent | gathering_data/util.py:251-260 | under that key condition, filtering the output again keeps every item |
| NearDuplicate.NameInsideShorter | gathering_data/util.py:169 | a name properly inside another name is strictly shorter |
| NearDuplicate.NameInsideTransitive | gathering_data/util.py:169 | "properly inside" is transitive |
| NearDuplicate.NameLengthGrows | gathering_data/util.py:169 | the preschool/daycare condition meets the key condition with key `len(x.name)` |
| NearDuplicate.PreschoolSurvivors | gathering_data/util.py:168-169 | an amenity survives exactly when no amenity of the input has a name properly inside its name, so equal names survive or go together |
| NearDuplicate.PreschoolIdempotent | gathering_data/util.py:168-169 | re-running the preschool/daycare filter on its output keeps every amenity |
| NearDuplicate.BranchCampusCollapses | gathering_data/util.py:168-169 | of a name and an extension of it, only the shorter name is kept |
| Chunking.SplitList | gathering_data/util.py:81-92 | `k == 0` is a division by zero; a negative `k` on an empty list gives `[[]]`; otherwise the pieces concatenate to the input; with `len >= k` there are `k` pieces of `len // k` and a remainder piece of `len % k`; with `len < k` the result is `[list]` |
| Chunking.FloorDiv | gathering_data/util.py:83 | Python's `//`: the quotient rounded toward negative infinity, for either sign of divisor |
| Chunking.NegativeKLoopsForever | gathering_data/util.py:83-88 | with a negative `k` and a non-empty list, the step is negative and `left < end` holds after any number of iterations, so the loop never ends |
| Scheduling.MakeParamSector | gathering_data/util.py:72-73 | the sector query names the centre and zoom of the location, and nothing else |
| Scheduling.ParseSector | gathering_data/util.py:144-147 | a non-dict answer is a TypeError; parsing succeeds exactly when all seven fields are present, and otherwise fails with a KeyError for a missing field; the sector takes those fields and a centre at the default zoom |
| Scheduling.GetSector | gathering_data/util.py:76-78 | a failed request fails with its error; otherwise the result is `parse_sector` of the answer |
| Scheduling.GetSectorList | gathering_data/util.py:99-116 | the loop returns the sectors, the failed regions and the trace of pauses of the scheduler run over `loop(regions)`, including the case where `sleep(delay)` raises inside the `try` |
| Scheduling.RunPartitions | gathering_data/util.py:103-115 | the sectors are those of the successful lookups, in input order; with a delay `sleep` accepts, the cancelled regions are exactly the failed ones in input order, and the two lengths add up to the number of regions |
| Scheduling.FailedMember | gathering_data/util.py:104-115 | a region is among the failures exactly when its own lookup fails |
| Scheduling.RunPaces | gathering_data/util.py:105-110 | with a non-negative delay and a positive interval, the counter is the number of successes modulo `interval`, and there is one rate pause per `interval` successes; with a non-positive interval or a negative delay, the counter is the number of successes and there is no rate pause |
| Scheduling.RunSleepRaises | gathering_data/util.py:104-115 | with a negative delay, every failed region is cancelled, and the cancelled list is one longer than the failures exactly when `interval` lookups have succeeded; before that it is exactly the failures |
| Scheduling.RunSleepRaisesAt | gathering_data/util.py:104-115 | with a negative delay, when the lookup at index p is the `interval`-th success, the cancelled list is the failures before p, then the region at p (where `sleep` raised), then the failures after p |
| Scheduling.RunErrorPauses | gathering_data/util.py:111-114 | there is exactly one error pause per failed region |
| Scheduling.TenRegionsFourthFails | gathering_data/util.py:103-116 | with ten regions of which the fourth fails, nine sectors come back and the loop runs to the end; with a non-negative delay that region is the only one cancelled; with a negative delay and an interval of at most nine, the cancelled list is the `interval`-th success and the fourth region, in loop order |
| Parsing.Collect | gathering_data/util.py:136-140 | the append loop returns the walk over all items, which stops at the first failure |
| Parsing.MapAllSuccess | gathering_data/util.py:136-140 | a parse loop succeeds exactly when every item parses, and then yields one output per item, in order |
| Parsing.MapAllFirstError | gathering_data/util.py:136-140 | a failed parse loop reports the error of the first item that fails |
| Parsing.RegionItem | gathering_data/util.py:137-140 | a region parses exactly when the four fields are present, and takes them |
| Parsing.ParseRegion | gathering_data/util.py:132-141 | `parse_region` computes the specification of the region list |
| Parsing.RegionsOfEntries | gathering_data/util.py:132-141 | an empty answer gives no region; otherwise there is one region per entry of `regionList`, in order |
| Parsing.NeighborItem | gathering_data/util.py:155-159 | an amenity parses exactly when name and coordinates are present; it gets the requested category |
| Parsing.SchoolItem | gathering_data/util.py:162-166 | a school parses exactly when its four fields are present; it is PUB_SCHOOL exactly when `organizationType` is "공립" |
| Parsing.ParseNeighbor | gathering_data/util.py:150-170 | `parse_neighbor` computes the specification of the amenity list |
| Parsing.RawNeighborKinds | gathering_data/util.py:153-166 | every amenity parsed has the requested category; a school is public or private |
| Parsing.NeighborsUnfiltered | gathering_data/util.py:168-170 | outside the preschool and daycare categories nothing is filtered out |
| Parsing.NeighborKinds | gathering_data/util.py:150-170 | the result holds amenities of the requested category only |
| Parsing.NeighborsFiltered | gathering_data/util.py:168-169 | for preschools and daycares no retained name lies properly inside another, the result is a sub-multiset of the parsed list, and an amenity is dropped only when a retained amenity's name lies inside its own |
| Parsing.MakeThing | gathering_data/util.py:182-195 | a listing is built exactly when the seventeen required fields are present, and otherwise fails with a KeyError for a missing field; each field takes its record value; a missing median is None; no direction or counts are set yet |
| Parsing.ParseThings | gathering_data/util.py:173-200 | `parse_things` computes the specification of the listing list, visiting a dict's keys in whatever order the dict holds them |
| Parsing.KeyRecord | gathering_data/util.py:176-179 | a string visited as a record is skipped unless it contains a price name, and otherwise fails with TypeError at `v['dealCount']` |
| Parsing.ThingsOfDict | gathering_data/util.py:176-179 | for a dict answer, walking its keys in any order gives the same result: `[]` when no key contains a price name, TypeError otherwise |
| Parsing.ThingsOfString | gathering_data/util.py:176-177 | a string answer gives no listings, since no single character contains a price name |
| Parsing.ThingItemRules | gathering_data/util.py:177-199 | a record with neither minimum price is skipped; a record with zero deal and zero lease offers is skipped; otherwise, with `dealCount` present and `leaseCount` present when it is read (a non-zero `dealCount` short-circuits past it), the record is built and kept exactly when the sector contains it |
| Parsing.ThingItemKept | gathering_data/util.py:177-199 | a kept record has a price, has an offer, lies in the sector, and carries the direction |
| Parsing.ThingsOfOrder | gathering_data/util.py:173-200 | the kept listings come from increasing record positions; every record not kept was skipped by a rule; every kept listing lies in the sector and carries the direction |
| Parsing.LeaseOnlyRecordAborts | gathering_data/util.py:177-188 | a record with a lease price but no deal price passes the skip rule and then aborts the parse with KeyError("minDealPrice") |
| Proximity.GetDistanceStandard | gathering_data/util.py:207-224 | the result has every default category and every caller category; a caller radius wins; otherwise the default radius stays |
| Proximity.DefaultRadii | gathering_data/util.py:207-224 | with no caller radii the standard is the default table, with 500 m for buses |
| Proximity.AroundOf | gathering_data/util.py:265-269 | counting succeeds exactly when every amenity's category has a radius; otherwise it is a KeyError for the first category without one |
| Proximity.AroundCounts | gathering_data/util.py:265-269 | the count of a category is the number of its amenities within its radius; a category with no radius counts 0 |
| Proximity.CountWithinBound | gathering_data/util.py:266-269 | a count never exceeds the number of amenities of that category |
| Proximity.CountWithinMonotone | gathering_data/util.py:268 | widening a radius never lowers a count |
| Proximity.AroundMonotone | gathering_data/util.py:263-270 | a standard with wider radii over the same categories gives every listing at least the same counts |
| Proximity.BusStopRadius | gathering_data/util.py:209 | with the default radii a bus stop 480 m away counts and one 520 m away does not |
| Proximity.CountAround | gathering_data/util.py:265-269 | the inner loop over the amenities computes the counts of one listing |
| Proximity.WithAround | gathering_data/util.py:263-270 | each listing keeps every field but gets fresh counts; with at least one listing, a category without a radius is a KeyError |
| Proximity.UpdateThingsIntersection | gathering_data/util.py:263-270 | updates the listings in place to the counted listings, keeping their number; on a KeyError no listing has changed |
| Fetching.MakeParamThing | gathering_data/util.py:37-64 | the listing query holds the fixed query, updated with the sector's and then the addon's parameters, where the later source wins |
| Fetching.ThingParamsDefaults | gathering_data/util.py:38-61 | unless overridden, the query asks at the sector's zoom, for retail prices, up to 900,000,000, with articles shown |
| Fetching.GetThings | gathering_data/util.py:67-69 | one request to the complex endpoint, parsed with the addon's direction |
| Fetching.ThingsEachDirection | gathering_data/util.py:280-290 | the sweep returns the concatenation of every direction's listings, and fails with the first failure |
| Fetching.ThingsAllDirectionsContained | gathering_data/util.py:280-290 | the sweep succeeds exactly when every direction succeeds; every listing carries a swept direction, lies in the sector and has no counts yet |
| Fetching.DirectionContained | gathering_data/util.py:67-69 | a listing fetched for a direction carries that direction and lies in the sector |
| Fetching.ThingsAllDirectionsFirstError | gathering_data/util.py:287-289 | a failed sweep reports the error of the first failing direction |
| Fetching.NeighborRequest | gathering_data/util.py:25-33 | schools go to the school endpoint and every other category to the neighborhood endpoint with `type` set to the category; the zoom is the sector's; every other parameter comes from the around parameters |
| Fetching.GetNeighborhood | gathering_data/util.py:25-34 | one request, then `parse_neighbor` with the category |
| Fetching.GetAllNeighbors | gathering_data/util.py:273-277 | returns the concatenation of every category's amenities, and fails with the first failure |
| Fetching.AllNeighborsCategories | gathering_data/util.py:273-277 | the collection succeeds exactly when every category succeeds; every amenity belongs to a requested category |
| Fetching.AllNeighborsFirstError | gathering_data/util.py:275-276 | a failed collection reports the error of the first failing category |
| Crawler.CoordTable | gathering_data/data_gatherer.py:29-36 | the table has an entry exactly for the names in the rows, each a coordinate pair |
| Crawler.CoordTableLast | gathering_data/data_gatherer.py:32-35 | a name's entry is the coordinates of its last row |
| Crawler.Located | gathering_data/data_gatherer.py:41-43 | a pair becomes a location at the default zoom; an empty tuple fails |
| Crawler.NaverCrawler.constructor | gathering_data/data_gatherer.py:13-27 | the fallback table is the nine built-in entries and the file table is built from the rows |
| Crawler.NaverCrawler.GetCoordinates | gathering_data/data_gatherer.py:38-44 | the file table wins, the fallback table is consulted only for names absent from the file, and a name in neither is LocationNotFound |
| Crawler.FileFirst | gathering_data/data_gatherer.py:38-41 | a name in the file resolves to its last row, whatever the fallback table holds |
| Crawler.FallbackOnly | gathering_data/data_gatherer.py:15-25 | a name absent from the file resolves through the fallback table; an empty fallback entry fails |
| Crawler.UnknownName | gathering_data/data_gatherer.py:44 | a name in neither table is LocationNotFound |
| Crawler.NaverCrawler.SearchLocation | gathering_data/data_gatherer.py:46-50 | a coordinate failure is the result, whatever the service would answer; otherwise a failed sector lookup is the result; otherwise the table of that sector |
| Crawler.NaverCrawler.RealEstateData | gathering_data/data_gatherer.py:52-73 | sweeps listings, collects amenities, counts them with the default radii on the listing array, builds the table and converts the prices |
| Crawler.EstateFrameRows | gathering_data/data_gatherer.py:53-56 | the table has exactly one row per listing of the sweep, with no deduplication, each listing counted before its row is built |
| Crawler.MakeFrame | gathering_data/data_gatherer.py:56 | `pd.DataFrame(rows, columns=...)` fails with ValueError exactly when there are rows and the widest is not as wide as the header; otherwise one row per input row, the short ones filled with missing values |
| Crawler.MaxWidth | gathering_data/data_gatherer.py:56 | the width pandas uses: no row is wider, and some row has it |
| Crawler.TableCells | gathering_data/data_gatherer.py:56-71 | the columns are the header; no listing's row is wider than the header; each row is the listing's row filled with missing values; a price cell is converted and every other cell is unchanged |
| Crawler.ConvertPrices | gathering_data/data_gatherer.py:67-71 | the loop over the price columns computes the conversion of every present price column |
| Crawler.RescaleColumnCells | gathering_data/data_gatherer.py:69-71 | converting one column changes only that column's cells, each to its conversion |
| Crawler.RescaleAllCells | gathering_data/data_gatherer.py:59-71 | with distinct price names, exactly the cells of the present price columns are converted, and every other column is unchanged |
| Crawler.RescaleCell | gathering_data/data_gatherer.py:69-71 | a null stays null; a number becomes `round(x / 10000, 2)`, a whole number of hundredths within 0.005 of x / 10000; a boolean becomes 0; a list cell is kept when empty or a single null, is a ValueError (ambiguous truth value) with two or more elements, and a TypeError with one other element; text or a dict cannot be divided |
| Crawler.RescaleExample | gathering_data/data_gatherer.py:69-71 | 125,000 becomes 12.5 |
| Crawler.Round2 | gathering_data/data_gatherer.py:70 | the result is a whole number of hundredths within 0.005 of the input, and an even one when the input lies halfway |
| Crawler.Round2Exact | gathering_data/data_gatherer.py:70 | a value already in hundredths is unchanged |
| Crawler.Round2Ties | gathering_data/data_gatherer.py:70 | a tie goes to the even hundredth |

## Left out

- `get` (gathering_data/util.py:18-22) is the field `Env.http`, a function from request to decoded answer or failure. The URL, headers, status check and logging print are not modelled.
- `distance_between` (gathering_data/util.py:203-204) is `Env.distance`, a natural number of metres. The haversine numerics are not modelled.
- `gathering_data/classes.py` is not part of this model. These pieces of it are parameters in `Env`:
  - the sector's point-in-polygon test;
  - `get_param` of sectors, addons and locations;
  - `NLocation`'s default zoom;
  - the `NNeighbor` categories and `NAddon.DIR_EACH`;
  - `NThing.HEADER` and `get_list`.
- `Crawler.Located`: `NLocation(*())`, the constructor called with no arguments for an empty fallback entry, is assumed to raise TypeError. The constructor is in `gathering_data/classes.py`, which is not part of this model.
- `NNeighborAround.increase` is `Model.Increase`, a map count.
- `sleep` and `get_sleep` are recorded as `RatePause` and `ErrorPause` events in a trace. Time is not modelled. `sleep` raising ValueError for a negative delay is modelled. Its other failures, such as an overflow on a huge delay, are not.
- Console output (`print` in the scheduler and in `search_location`) is not modelled.
- `make_param_region` and `get_region_list` (gathering_data/util.py:123-129) are a request wrapper around `parse_region`, which is modelled. The wrappers are left out.
- `get_all_on_sector` (gathering_data/util.py:293-296) only pairs the two sweeps, which are modelled. It is left out.
- `things_to_dusts` and `neighbors_to_dusts` (gathering_data/util.py:227-244) depend on `NDimension.fit_scale`, which is not shown, and on float scaling. They are left out.
- `extract_location_from_query` and the OpenAI and secrets setup (gathering_data/util.py:9-11, 299-321) are foreign LLM calls. They are left out.
- Reading the CSV file (encoding, pandas parsing, NaN cells) is not modelled. The crawler's constructor takes the file's rows.
- Writing the Excel file and the interactive `__main__` block are not modelled.
- Default arguments are not modelled as such; callers pass every argument. These are `split_list`'s `k=5`, `get_sector_list`'s `delay=2`, `interval=10` and `loop=default_loop`, and the default addon of `get_things`.
- `Crawler.Round2` works on exact reals. Binary floating point, under which `round` can go the other way on a decimal tie, is not modelled.
- `Crawler.RescaleCell`: pandas' promotion of an integer column with missing values to floats with NaN is modelled as nulls passing through. List cells are treated as flat lists. A list holding lists, which numpy turns into a multi-dimensional array, is not modelled. The empty list is kept, as numpy before 2.2 does; later numpy versions raise on the truth of an empty array.
- `Crawler.RescaleAllCells`: when the header repeats a price column name, only its first position is converted. pandas' handling of duplicate column names is not modelled.
- `Crawler.MakeFrame`: pandas fills short rows with `None`, then NaN in numeric columns. Both are the null value here.
- `Scheduling.ParseSector`: on a dict missing fields, the contract says the KeyError names some missing field, not necessarily the first one the source reads.
- `Parsing.MakeThing`: on a dict missing fields, the contract says the KeyError names some missing required field, not necessarily the first one the source reads.
- `Chunking.SplitList`: a negative `k` makes the source loop forever on a non-empty list (`Chunking.NegativeKLoopsForever`). A method must return, so the method requires `k >= 0` or an empty list.
- `NearDuplicate.NameInside`: a name that is not a string is a TypeError in `parse_neighbor` (`Parsing.NeighborsOf`). Python's `in` on list-valued names is not modelled.
- `Common.Iter`: in `parse_region` and `parse_neighbor`, a non-empty dict or string is a TypeError at once. The source visits its keys or characters and fails on the first subscript of one, with the same TypeError. `parse_things` tests each item with `in` before subscripting it, so it iterates keys and characters itself (`Parsing.ThingsOf`).
- `Proximity.UpdateThingsIntersection` works on an array of listing values. Aliasing between listing objects shared by several lists is not modelled.
- `NearDuplicate.FilterItem` works on a sequence: `list.remove` removes the first equal item. Items are compared as values, not by identity.
