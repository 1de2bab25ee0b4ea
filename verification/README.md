# Bus seat-fare heuristic

A Dafny model of the pricing core of a small bus-fare planner (`app.py`).
The planner does four things:

- It builds the listing-search address for a route (`generate_url`).
- It reads a departure time in one of two clock formats (`parse_time`).
- It adjusts a base fare through a fixed chain of multipliers (`calculate_fare`). The chain runs in this order:
  - amenities present (WiFi, Washroom, Multi-axle, 9600);
  - departure-time bracket;
  - seat position;
  - seat type.
- It lays out one suggested fare per seat of a rows-by-columns bus (`calculate_seat_fares`). The seat position and type of each row depend on the seating type.

Modules:

- `Wrappers`: `Option` and `Result`.
- `ClockTime`: departure times as minutes since midnight. It covers the 12-hour and 24-hour readings, the canonical renderings and the time-of-day brackets.
- `FareAdjuster`: the multiplier chain, computed on exact rationals in place of the source's floating-point multiplications (see "## Left out").
- `SeatGrid`: the seat-fare planner. There is a reference definition of the whole grid (`FareGrid`) and the loop as the source runs it (`CalculateSeatFares`). The base fare is a parameter.
- `ScrapeUrl`: the listing-search address.

Errors:

- A departure time that neither clock format accepts raises an exception in the source. Here it is `Failure(Unparsable(text))`.
- The planner only meets that error when it prices at least one seat.

Behaviours of the source that the model keeps as they are:

- `calculate_seat_fares` returns one empty list per row when columns ≤ 0.
- It raises on an unreadable departure only once it prices a seat.
- The web route passes the amenities as a list (`request.form.getlist`), so `'WiFi' in amenities` is list membership, not a substring test.

## Model

| member | source | states |
|---|---|---|
| ClockTime.ParseTime | app.py:107-111 | A text is read exactly when the 12-hour or the 24-hour reading accepts it, and then as the time that reading gives (the two never both accept a text, so trying the 12-hour reading first changes no result); a failed reading reports the text; only five- or eight-character texts are accepted |
| ClockTime.Parse12 | app.py:109 | A text is read as a 12-hour time exactly when it is two digits of hour 01-12, ':', two digits of minute below 60, one space and an AM/PM marker; the time read keeps the minute, the hour modulo 12, and is before noon exactly for AM |
| ClockTime.Parse24 | app.py:111 | A text is read as a 24-hour time exactly when it is two digits of hour below 24, ':' and two digits of minute below 60; the time read has that hour and minute |
| ClockTime.Format24RoundTrip | app.py:111 | Every time of day written "HH:MM" is read back as that time |
| ClockTime.Format12RoundTrip | app.py:109 | Every time of day written "hh:MM AM/PM" is read back as that time |
| ClockTime.Parse24Canonical | app.py:111 | A text the 24-hour reading accepts is exactly the canonical rendering of the time it yields (the reading is one-to-one) |
| ClockTime.Parse12Canonical | app.py:109 | A text the 12-hour reading accepts, with the marker in capitals, is exactly the canonical 12-hour rendering of its time |
| ClockTime.BracketOf | app.py:128-133 | The bracket the if/elif chain picks always holds the time in its interval |
| ClockTime.BracketIsInterval | app.py:128-133 | The if/elif bracket chain puts a time in a bracket exactly when the time lies in that bracket's interval: [18:00, 20:00], (20:00, 23:00], after 23:00, or before 18:00 for none |
| ClockTime.BracketMonotone | app.py:128-133 | Later times never fall in an earlier bracket |
| ClockTime.BracketBoundaries | app.py:128-133 | 18:00 and 20:00 are evening, 23:00 is night, and the minutes just past each bound fall in the next bracket |
| FareAdjuster.CalculateFare | app.py:114-147 | An unreadable departure gives its error; otherwise the fare is the base (0 when missing) times the amenity factor times the bracket, position and seat-type factors |
| FareAdjuster.ApplyStages | app.py:118-145 | Multiplying the running fare stage by stage equals the base times the product of every applicable factor |
| FareAdjuster.ApplyAmenitiesIsProduct | app.py:118-125 | ApplyAmenities, the four amenity tests run in sequence, multiplies the fare by the product of the factors of the tags present |
| FareAdjuster.AmenityProductByMembership | app.py:118-125 | Only which tags are present matters, not their order or repetition |
| FareAdjuster.AddAmenity | app.py:118-125 | Adding an absent tag multiplies the amenity factor by the factor that tag gets on its own |
| FareAdjuster.AmenityStacks | app.py:118-145 | Adding an absent recognised amenity multiplies the seat's fare by exactly that amenity's factor, whatever the departure, position and seat type |
| FareAdjuster.AmenityProductBounds | app.py:118-125 | The amenity factor lies between 1 (no tag) and the product of all four factors (every tag) |
| FareAdjuster.FareFactorBounds | app.py:118-145 | Every seat's combined factor lies between 0.98·0.995·0.99 and 1.02·1.05·1.02·1.015·1.06·1.07 |
| FareAdjuster.FareWithinBounds | app.py:114-147 | A non-negative base gives a fare, never negative, within those factor bounds of the base |
| FareAdjuster.FareMonotoneInBase | app.py:114-147 | A higher base never gives a lower fare |
| FareAdjuster.MissingBaseIsZero | app.py:115-116 | A missing base gives a fare of 0 for every readable departure |
| FareAdjuster.IdentityPath | app.py:114-147 | No recognised amenity, a departure before 18:00, a position other than "upper" and a seat type with no factor leave the base unchanged |
| FareAdjuster.UpperDiscount | app.py:135-138 | An upper seat costs exactly 0.995 of the lower seat with the same other inputs |
| FareAdjuster.BerthPremium | app.py:135-145 | An upper single berth costs exactly 0.995·1.07 of a lower seat whose type carries no factor |
| FareAdjuster.DoubleIsDoubleVacant | app.py:140-145 | The seat type "double" matches no seat-type test and prices exactly like "double_vacant" |
| FareAdjuster.BracketExamples | app.py:128-131 | Worked fares at the evening and night boundaries for a base of 100 |
| FareAdjuster.LateExamples | app.py:107-133 | Worked fares after 23:00 and in the 12-hour format, and the error for "24:00" |
| SeatGrid.SeatFor | app.py:158-170 | Every seat is "upper" or "lower"; it is upper exactly for a sleeper row below rows // 2 or a seater-plus-sleeper row from num_seats on; it is "single" exactly for sleepers and upper seats, and "double" otherwise |
| SeatGrid.FareGrid | app.py:154-176 | The grid fails exactly when there is a seat to price and the departure is unreadable; otherwise it has max(rows,0) rows of max(columns,0) fares |
| SeatGrid.CalculateSeatFares | app.py:154-176 | The row-by-row, seat-by-seat loop, stopping at the first error, yields exactly the reference grid |
| SeatGrid.GridCellsAreFares | app.py:158-173 | Every fare of the grid is what the fare adjuster gives for that row's seat position and type |
| SeatGrid.RowsAreUniform | app.py:157-173 | All seats of a row get the same fare |
| SeatGrid.PlainLayoutUniform | app.py:168-170 | A seating type other than "Sleeper" and "Seater + Sleeper" gives every seat the same fare |
| SeatGrid.SleeperUpperDiscount | app.py:158-160 | In a sleeper, a seat in the first rows // 2 rows costs exactly 0.995 of a seat in a later row |
| SeatGrid.SeaterSleeperBerthPremium | app.py:161-167 | In a seater-plus-sleeper, a seat from row num_seats on costs exactly 0.995·1.07 of a seat in an earlier row |
| SeatGrid.SleeperUpperRows | app.py:158-160 | Among the first n rows of a sleeper, exactly min(n, max(rows // 2, 0)) hold upper berths |
| SeatGrid.SeaterSleeperUpperRows | app.py:161-167 | Among the first n rows of a seater-plus-sleeper, exactly those from num_seats on hold upper berths |
| SeatGrid.PlainLayoutNoUpperRows | app.py:168-170 | Any other seating type has no upper berths |
| ScrapeUrl.GenerateUrl | app.py:31-35 | The address is the base and '/', the source slug, "-to-", the destination slug, '?', then the query naming source, destination, date and bus type verbatim, each at its own position |
| ScrapeUrl.CitySlug | app.py:33 | The slug has the name's length; each character is the name's character with a space made '-' and upper case made lower |
| ScrapeUrl.SlugShape | app.py:33 | A slug holds no space and no ASCII capital, and every other character of the name stays in place |
| ScrapeUrl.SlugIdempotent | app.py:33 | Slugging a slug changes nothing |
| ScrapeUrl.UrlSplits | app.py:31-35 | When neither city name holds '?', the address splits at its first '?' into the base and route path and the query repeating the inputs verbatim |

## Left out

- Fetching listings (Selenium, the ChromeDriver set-up, scrolling, BeautifulSoup parsing) and saving them to Excel. These are browser and file I/O.
- The Flask route and the HTML template.
- The base fare that the planner takes as the mean of the saved listings' `Fare` column (pandas). It is a parameter of the grid functions. The `NaN` case is folded into `None` (`Option.None`).
- Floating-point arithmetic. Each `*=` at app.py:119-145 is a binary-double multiplication, and none of the factors (1.02, 1.05, 0.995, …) is exactly representable. The model multiplies exact rationals instead. Its fares are therefore the exact products of the written factors, not the rounded doubles the source computes. The ratios "exactly 0.995" and "exactly 0.995·1.07" in UpperDiscount, BerthPremium, SleeperUpperDiscount and SeaterSleeperBerthPremium hold for these exact products only.
- The final `round(…, 2)` of each fare.
- Inputs `datetime.strptime` accepts and the model rejects. The model accepts only two shapes, both with two-digit fields: "hh:MM AM|PM" (AM/PM letters in either case, one space) and "HH:MM". The source also accepts:
  - one-digit hour and minute fields, such as "9:30" or "9:5 PM";
  - a space before a one-digit 12-hour hour, such as " 9:30 PM";
  - any run of whitespace between the minutes and the AM/PM marker, such as `"09:30  PM"` or `"09:30\tPM"`;
  - non-ASCII decimal digits;
  - locale-dependent AM/PM names.

  Like the source, the model rejects any other leading text and any trailing text.
- A departure of `None` raises a `TypeError` in the source rather than a `ValueError`. The model has one error value for any unreadable text.
- ScrapeUrl.CitySlug: lower-cases ASCII letters only, while `str.lower()` also lower-cases other Unicode letters.
- The unused planner inputs:
  - `num_berths`, which is accepted by `CalculateSeatFares` and not used;
  - source, destination, bus type and departure date, which are not parameters.
- FareAdjuster.AmenityStacks: stated on the stage chain `ApplyStages` once the departure is read, rather than on `CalculateFare` itself. `FareIsStages` ties the two together for every readable departure.
