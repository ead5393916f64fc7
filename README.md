# Compliance report core of terrasense-api, modelled in Dafny

terrasense-api collects temperature and humidity readings from sensor
devices. For a device it produces a compliance report: a PDF made from a
fixed template. Each report holds:

- a header with the period, branch, sector and device details;
- a daily grid with one row per day of the period. Each row shows the mean
  of every four-hour period of that day, then the day's maximum, minimum
  and standard deviation;
- a frequency chart and a trend chart;
- the user's stored signature image;
- a narrative paragraph. It states how long the readings stayed inside the
  device's working range. It adds a warning when 7 consecutive readings
  fall outside that range. The paragraph is wrapped to a width. It is
  meant to go on to a new page when it reaches the bottom margin, but the
  code as written fails there (see Findings).

`getAllReports` accepts periods of up to 15 calendar days. It queries every
device's readings in a window that ends 3 minutes before the day after the
end date. It builds one report per device that has readings. Each report is
a file name plus the Base64 data URI of the saved PDF.

Around that pipeline the model also covers:

- the signature upload and download helpers;
- the image and IP-address validators;
- the font cache;
- the in-place update of a device's two table records;
- the user entity's authorities and password update;
- the request filter that authenticates by API key or bearer token.

## How the model is built

- **Units.** Coordinates and widths are whole hundredths of a point
  (575.8 is 57580, 17.6 is 1760, the 0.11 increment is 11). Dates are day
  numbers counted from 1970-01-01, and `Calendar.Civil` gives their civil
  fields. Instants are seconds. The America/Sao_Paulo zone is the fixed
  offset of -03:00.
- **The PDF document** is `Pdf.Document`, a class. Its state is the page
  count, the log of draw operations and a closed flag. Every drawing step of
  the source is a method that appends to that log. The claims then say
  exactly which operations a step appends, in which order, and how many
  pages it adds.
- **Imperative parts stay imperative.** This covers the loops that sort the
  caller's list, the streak counter, the line wrapper, the cursor loop of
  the paragraph writer, the grid loops and the date loops. Each such method
  is proved against a specification function: `SortByTime`, `HasRun`,
  `WrapLines`, `ParagraphOps`/`Resets`, `GridRects`, `DayLabels`,
  `MetricCells`, `NestedCells`. Lemmas then prove what the source promises
  about those functions.
- **Inputs the model takes as parameters.** These are:
  - floating-point `%.2f` formatting (`fmt`);
  - the square root of the standard deviation (`sqrt`);
  - glyph widths (`widthOf`);
  - the chart images;
  - saving the PDF (`save`, which may fail);
  - the repositories (`findReadings`, `deviceExists`, `findUser`) and the
    result of the signature lookup;
  - the token service (`validate`);
  - whether a font file can be read.
- **Base64** follows `java.util.Base64`: the basic alphabet of section 4 of
  RFC 4648, with padding on encoding. The decoder accepts the same inputs as
  the JDK's basic decoder:
  - groups of four alphabet characters;
  - then possibly a final group of two or three characters. That group may
    carry its exact padding (`==` after two, `=` after three) or none;
  - a single final character is rejected, and nothing may follow the
    padding.
- **Regular expressions** are written out as predicates on strings. This
  covers the picture pattern, the IPv4 pattern and `\s+`.
- **Java's `String.split`** drops trailing empty pieces, and the model does
  the same (`Common.JavaSplit`).

### Where the code and its design notes differ

In each case the model follows the code.

- **The paragraph's first line can be wider than the maximum.** The
  wrapper's running width starts at 0 for the first line. Every later line
  starts at the word's width plus one space width. So the first line can
  exceed the maximum by one space width (`Paragraph.FirstLineOverflowExample`).
- **The first line can be empty.** This happens when the very first word is
  wider than the maximum. Lines are not always "not exceeding maxWidth".
- **The page count is not the design's ⌈lines × pitch / available height⌉.**
  A new page is started only when the cursor is at or below the margin
  before a line, so the count the intended writer reaches is
  `Paragraph.Resets`. Once on a fresh page,
  50 lines fit per page (`Paragraph.PagesFromBottom`).
- **The paragraph cannot go past the bottom margin.** At the first line
  with the cursor at or below the margin, the writer closes its content
  stream and then calls `beginText` on it, which fails before a page is
  added. The model keeps that behaviour in `Paragraph.WriteParagraphAsWritten`,
  and the report pipeline uses the intended writer, which goes on on a new
  page (see Findings).
- **The document is not closed on every path.** It is closed only when
  generation reaches the `try` block. A signature that cannot be decoded
  fails before that, and the document stays open (`ReportService.GenerateReport`).
- **Day labels count past the month's end.** The grid labels row i with the
  start date's day of month plus i, and looks up the statistics by that
  number. For a period that crosses a month end, the label goes to 32 and
  beyond, and those rows stay blank (`MetricsFormFiller.NoValuesPastDay31`).

## Model

| member | source | states |
|---|---|---|
| Analytics.SortByTime | src/main/java/br/com/devlovers/services/report/util/AnalyticsCreator.java:39 | The result is ordered by timestamp and is a permutation (equal multiset) of the input. |
| Analytics.SortSortedIsIdentity | src/main/java/br/com/devlovers/services/report/util/AnalyticsCreator.java:39 | Sorting an already sorted list leaves it as it is, so the four successive sorts in fill act as one. |
| Analytics.PeriodLabelByQuarter | src/main/java/br/com/devlovers/services/report/util/AnalyticsCreator.java:247-264 | Every hour 0..23 gets a label, and hour h gets the label with index h/4 of "0-4h", "4-8h", "8-12h", "12-16h", "16-20h", "20-0h". |
| Analytics.PeriodAndDayOfInstant | src/main/java/br/com/devlovers/services/report/util/AnalyticsCreator.java:242-264 | Every instant has one of the six period labels and a day of month between 1 and 31. |
| Analytics.OnDayCount | src/main/java/br/com/devlovers/services/report/util/AnalyticsCreator.java:81-83 | A reading occurs in the group of its own day as often as in the list, and in no other day's group. |
| Analytics.InPeriodCount | src/main/java/br/com/devlovers/services/report/util/AnalyticsCreator.java:42-47 | A reading occurs in the group of its own (day, period) as often as in the list, and in no other group. |
| Analytics.DayGroupNonEmpty | src/main/java/br/com/devlovers/services/report/util/AnalyticsCreator.java:81-83 | Every day key has a non-empty group. |
| Analytics.PeriodGroupNonEmpty | src/main/java/br/com/devlovers/services/report/util/AnalyticsCreator.java:42-47 | Every (day, period) key has a non-empty group. |
| Analytics.KeysOfPermutation | src/main/java/br/com/devlovers/services/report/util/AnalyticsCreator.java:38-47 | The day and period keys depend only on the multiset of readings, so the in-place sort does not change them. |
| Analytics.EmptyListHasNoKeys | src/main/java/br/com/devlovers/services/report/util/AnalyticsCreator.java:38-75 | An empty list yields no day keys and no period keys. |
| Analytics.GetMean | src/main/java/br/com/devlovers/services/report/util/AnalyticsCreator.java:21-36 | The loop returns 0 for an empty list, and otherwise the sum of the values divided by their count. |
| Analytics.GetMeans | src/main/java/br/com/devlovers/services/report/util/AnalyticsCreator.java:38-75 | The caller's list becomes its sort by timestamp. The result is, per day with readings, the mean of each non-empty four-hour group. |
| Analytics.PeriodMeans | src/main/java/br/com/devlovers/services/report/util/AnalyticsCreator.java:57-69 | The inner loop maps each period of the day to the mean of exactly that period's readings. |
| Analytics.StatisticByDay | src/main/java/br/com/devlovers/services/report/util/AnalyticsCreator.java:86-98 | The loop over the day groups maps each day with readings to the statistic of that day's values. |
| Analytics.GetStandardDeviation | src/main/java/br/com/devlovers/services/report/util/AnalyticsCreator.java:77-101 | The caller's list becomes its sort by timestamp. The result maps each day with readings to the sample standard deviation of its values. |
| Analytics.GetMin | src/main/java/br/com/devlovers/services/report/util/AnalyticsCreator.java:103-127 | The caller's list becomes its sort by timestamp. The result maps each day with readings to the minimum of its values. |
| Analytics.GetMax | src/main/java/br/com/devlovers/services/report/util/AnalyticsCreator.java:129-153 | The caller's list becomes its sort by timestamp. The result maps each day with readings to the maximum of its values. |
| Analytics.ByDayKeys | src/main/java/br/com/devlovers/services/report/util/AnalyticsCreator.java:77-153 | The minimum, maximum and standard-deviation maps share one key set: the days that have readings. Sorting does not change it. |
| Analytics.MeansKeys | src/main/java/br/com/devlovers/services/report/util/AnalyticsCreator.java:38-75 | The day keys of the means are the days with readings. Each day's period keys are the periods with readings on that day. |
| Analytics.InOwnDayGroup | src/main/java/br/com/devlovers/services/report/util/AnalyticsCreator.java:81-83 | Every reading's value belongs to the group of its day. |
| Analytics.DayGroupValueIsReading | src/main/java/br/com/devlovers/services/report/util/AnalyticsCreator.java:81-83 | Every value in a day's group is the value of a reading of that day. |
| Analytics.DayMinMaxBound | src/main/java/br/com/devlovers/services/report/util/AnalyticsCreator.java:103-153 | For each reading, its day's minimum is at most the value and its day's maximum at least it. Both bounds are values of readings of that day. |
| Analytics.PeriodMeanBetween | src/main/java/br/com/devlovers/services/report/util/AnalyticsCreator.java:59-69 | Each period mean is taken over a non-empty group and lies between that group's minimum and maximum. |
| Analytics.RangeCountsPartition | src/main/java/br/com/devlovers/services/report/util/AnalyticsCreator.java:159-160 | The readings inside the inclusive range and the readings strictly outside it together account for every reading. |
| Analytics.WorkingPeriodReadsBack | src/main/java/br/com/devlovers/services/report/util/AnalyticsCreator.java:155-177 | For both the temperature and the humidity range, the text reads back as 3 minutes per in-range reading, which is at most 3 times the number of readings. |
| Analytics.ParseAmountText | src/main/java/br/com/devlovers/services/report/util/AnalyticsCreator.java:230-237 | Each "n unit" part reads back as n times the unit's minutes and contains no comma. |
| Analytics.UnitWordReadsBack | src/main/java/br/com/devlovers/services/report/util/AnalyticsCreator.java:232-237 | A unit word carries the plural "s" exactly when its amount is greater than 1. |
| Analytics.MinutesSplit | src/main/java/br/com/devlovers/services/report/util/AnalyticsCreator.java:226-228 | days·1440 + hours·60 + minutes equals the total, with hours < 24 and minutes < 60. |
| Analytics.FormatTimeOfOneDay | src/main/java/br/com/devlovers/services/report/util/AnalyticsCreator.java:225-240 | 1440 minutes are written "1 dia, 0 minuto". |
| Analytics.DurationTextReadsBack | src/main/java/br/com/devlovers/services/report/util/AnalyticsCreator.java:230-239 | The text for any days, hours and minutes reads back as days·1440 + hours·60 + minutes. |
| Analytics.DurationParts | src/main/java/br/com/devlovers/services/report/util/AnalyticsCreator.java:230-239 | The text has a day part exactly when days > 0 and an hour part exactly when hours > 0, comma-separated in that order. The minutes part is always present and comes last. |
| Analytics.FormatTimeRoundTrip | src/main/java/br/com/devlovers/services/report/util/AnalyticsCreator.java:225-240 | Reading back the text of formatTime gives the total number of minutes. |
| Analytics.FormatTimeInjective | src/main/java/br/com/devlovers/services/report/util/AnalyticsCreator.java:225-240 | Different totals give different texts. |
| Analytics.FindStreak | src/main/java/br/com/devlovers/services/report/util/AnalyticsCreator.java:183-201 | The counter loop finds a streak exactly when 7 consecutive readings, in list order, lie strictly outside the range. A value equal to a bound resets the streak. |
| Analytics.NoteIfTemperatureNotWorkedInRange | src/main/java/br/com/devlovers/services/report/util/AnalyticsCreator.java:179-203 | With such a streak the note is the EQUIPMENT seal text or the ENVIRONMENT maintenance text, according to the device's function. Otherwise it is empty. |
| Analytics.NoteIfHumidityNotWorkedInRange | src/main/java/br/com/devlovers/services/report/util/AnalyticsCreator.java:205-223 | With such a streak the note is the fixed humidity text. Otherwise it is empty. |
| Statistics.MinOf | src/main/java/br/com/devlovers/services/report/util/AnalyticsCreator.java:118-121 | The minimum is one of the values and no greater than any of them. |
| Statistics.MaxOf | src/main/java/br/com/devlovers/services/report/util/AnalyticsCreator.java:144-147 | The maximum is one of the values and no smaller than any of them. |
| Statistics.MeanBetweenMinAndMax | src/main/java/br/com/devlovers/services/report/util/AnalyticsCreator.java:63-66 | The mean of a non-empty group lies between its minimum and its maximum. |
| Statistics.SumSquaredDeviationsNonNegative | src/main/java/br/com/devlovers/services/report/util/AnalyticsCreator.java:92-95 | The sum of squared deviations under the standard deviation is never negative. |
| Statistics.ConstantStandardDeviation | src/main/java/br/com/devlovers/services/report/util/AnalyticsCreator.java:92-95 | A group of equal values has that value as its mean and a standard deviation of sqrt(0). |
| Paragraph.SplitOnWhitespaceWords | src/main/java/br/com/devlovers/services/report/util/InfoParagraphInserter.java:155 | split("\\s+") gives the maximal runs of non-whitespace. A leading "" appears only when the text starts with whitespace, and the empty text gives [""]. |
| Paragraph.SplitOnWhitespaceOfJoin | src/main/java/br/com/devlovers/services/report/util/InfoParagraphInserter.java:155 | Splitting words joined by single spaces gives back the words. |
| Paragraph.TextLinesAreWordLines | src/main/java/br/com/devlovers/services/report/util/InfoParagraphInserter.java:155-176 | The leading "" from split changes nothing in the wrapped lines. |
| Paragraph.SplitTextIntoLines | src/main/java/br/com/devlovers/services/report/util/InfoParagraphInserter.java:154-183 | The loop over the words, with its running width and line buffer, returns the greedy wrap of the text's words. |
| Paragraph.WrapKeepsWords | src/main/java/br/com/devlovers/services/report/util/InfoParagraphInserter.java:154-183 | The words of the lines, read in order, are exactly the input words. Nothing is lost, duplicated, reordered or split. |
| Paragraph.WrapEmptyLines | src/main/java/br/com/devlovers/services/report/util/InfoParagraphInserter.java:164-166 | There are no lines exactly when there are no words. Only the first line can be empty, and it is empty exactly when the first word alone is wider than the maximum. |
| Paragraph.WrapWidthBound | src/main/java/br/com/devlovers/services/report/util/InfoParagraphInserter.java:157-175 | Every line of two or more words is no wider than the maximum. The first line may be wider by one space width. |
| Paragraph.WrapGreedy | src/main/java/br/com/devlovers/services/report/util/InfoParagraphInserter.java:164 | Every line break is forced: the code's running width plus the next line's first word exceeds the maximum. |
| Paragraph.FirstLineOverflowExample | src/main/java/br/com/devlovers/services/report/util/InfoParagraphInserter.java:158-167 | Words 4 and 5 wide, with a space of 1 and a maximum of 9, give a single first line 10 wide. |
| Paragraph.LineY | src/main/java/br/com/devlovers/services/report/util/InfoParagraphInserter.java:106-111 | Every line is drawn strictly above the bottom margin. |
| Paragraph.ParagraphOpsAt | src/main/java/br/com/devlovers/services/report/util/InfoParagraphInserter.java:104-116 | One text draw per line, in order. Line k goes to the cursor after k lines, above the bottom margin, on the page that cursor is on. |
| Paragraph.LinePages | src/main/java/br/com/devlovers/services/report/util/InfoParagraphInserter.java:106-111 | A line is on page 0 exactly when no page break came before it; after one it is on a page the paragraph added, which the document has afterwards. |
| Paragraph.CursorDescends | src/main/java/br/com/devlovers/services/report/util/InfoParagraphInserter.java:114-115 | While the cursor stays above the margin, each line lowers it by 15 points and no page is added. |
| Paragraph.PageHolds50Lines | src/main/java/br/com/devlovers/services/report/util/InfoParagraphInserter.java:106-115 | With the page break as intended: from the margin, a new page restarts the cursor at the page height minus 50. It then holds exactly 50 lines before the next page. |
| Paragraph.PagesFromBottom | src/main/java/br/com/devlovers/services/report/util/InfoParagraphInserter.java:106-111 | With the page break as intended: starting at the margin, n lines start (n + 49) / 50 pages. |
| Paragraph.AddNewPageAndResetCursor | src/main/java/br/com/devlovers/services/report/util/InfoParagraphInserter.java:125-133 | Adds one page and returns the A4 height minus the bottom margin. |
| Paragraph.WriteParagraph | src/main/java/br/com/devlovers/services/report/util/InfoParagraphInserter.java:95-123 | The intended writer: draws every wrapped line at its cursor position on its page, adding one page per cursor reset after creating page 0 if needed. |
| Paragraph.Room | src/main/java/br/com/devlovers/services/report/util/InfoParagraphInserter.java:106 | The number of lines that fit above the bottom margin from a cursor: the cursor is above the margin before each of them and at or below it after the last. |
| Paragraph.FittingLines | src/main/java/br/com/devlovers/services/report/util/InfoParagraphInserter.java:104-116 | A line that fits is drawn on page 0 one pitch below the previous one, with no page added. |
| Paragraph.OverflowIsPageBreak | src/main/java/br/com/devlovers/services/report/util/InfoParagraphInserter.java:106-111 | A paragraph has more lines than fit exactly when the intended writer starts a page for it. |
| Paragraph.OverflowExample | src/main/java/br/com/devlovers/services/report/util/InfoParagraphInserter.java:106-111 | One pitch above the margin one line fits, and a second one is a page break. |
| Paragraph.WriteParagraphAsWritten | src/main/java/br/com/devlovers/services/report/util/InfoParagraphInserter.java:104-116 | As written: draws the lines that fit on page 0, then fails at the first line past the margin without adding a page. It fails exactly when there are more lines than fit. |
| Paragraph.BuildParagraphInfo | src/main/java/br/com/devlovers/services/report/util/InfoParagraphInserter.java:48-69 | Builds the paragraph fields: the measurement name, unit, working bounds, time in range and note of the reading type. |
| Paragraph.NotesEndWithParenthesis | src/main/java/br/com/devlovers/services/report/util/AnalyticsCreator.java:194-219 | Each of the three notes ends with ')'. |
| Paragraph.ParagraphTextEnds | src/main/java/br/com/devlovers/services/report/util/InfoParagraphInserter.java:71-84 | The text starts with the fixed opening and the measurement name. It ends with '.' exactly when the note is empty. |
| Paragraph.NoteOfInfo | src/main/java/br/com/devlovers/services/report/util/InfoParagraphInserter.java:52-66 | TEMPERATURE selects "temperatura" and the temperature bounds and note; any other type selects the humidity ones. The note is empty exactly when there is no 7-reading streak. |
| Paragraph.ParagraphOpeningAndEnd | src/main/java/br/com/devlovers/services/report/util/InfoParagraphInserter.java:71-84 | The paragraph names its quantity after the opening, and it ends with a note exactly when the readings have a streak outside the working range. |
| Paragraph.InsertParagraph | src/main/java/br/com/devlovers/services/report/util/InfoParagraphInserter.java:36-46 | Writes the wrapped lines of the text built from the device, type, readings and period. |
| MetricsFormFiller.IncrementerClosedForm | src/main/java/br/com/devlovers/services/report/util/MetricsFormFiller.java:74-75 | After i iterations the incrementer is 0.11 times ⌈i/2⌉. |
| MetricsFormFiller.DecrementerClosedForm | src/main/java/br/com/devlovers/services/report/util/MetricsFormFiller.java:68-76 | The decrementer before rows 2m and 2m+1 has the closed forms 34m + 0.11m² and that plus 17 + 0.11m. |
| MetricsFormFiller.RowsDescend | src/main/java/br/com/devlovers/services/report/util/MetricsFormFiller.java:72-75 | Row i+1 is 17 + 0.11·⌈(i+1)/2⌉ points below row i, so the rows strictly descend by at least 17 per row. |
| MetricsFormFiller.TextInsideGridRow | src/main/java/br/com/devlovers/services/report/util/MetricsFormFiller.java:26-26 | For the first 28 rows, each row's text lies inside the matching rectangle of the grid. The 29th row's text falls below its rectangle. |
| MetricsFormFiller.PeriodColumns | src/main/java/br/com/devlovers/services/report/util/MetricsFormFiller.java:142-152 | The six labels map to 93, 136, 182, 225, 266 and 309 in order. Every other string maps to -1. |
| MetricsFormFiller.MeansArePeriodLabels | src/main/java/br/com/devlovers/services/report/util/MetricsFormFiller.java:118-120 | Every period key that getMeans produces is one of the six labels, so its column is never -1. |
| MetricsFormFiller.DayLabelsAt | src/main/java/br/com/devlovers/services/report/util/MetricsFormFiller.java:71-76 | Row i's label is the number startDay + i, with no wrap at the month's end. |
| MetricsFormFiller.MetricCellsContent | src/main/java/br/com/devlovers/services/report/util/MetricsFormFiller.java:88-101 | Each day of the window with a value gets its formatted value in that day's row. Every cell drawn comes from such a day, and days missing from the map leave blank cells. |
| MetricsFormFiller.MetricCellsCount | src/main/java/br/com/devlovers/services/report/util/MetricsFormFiller.java:90-96 | At most one cell per row, and exactly one per row when every day has a value. |
| MetricsFormFiller.RowCellsContent | src/main/java/br/com/devlovers/services/report/util/MetricsFormFiller.java:118-121 | One cell per period of the day, in the map's iteration order, each at that period's column. |
| MetricsFormFiller.NestedCellsComplete | src/main/java/br/com/devlovers/services/report/util/MetricsFormFiller.java:112-127 | Every period mean of every day in the window is drawn in that day's row, at the period's column. |
| MetricsFormFiller.NestedCellSource | src/main/java/br/com/devlovers/services/report/util/MetricsFormFiller.java:112-127 | Every cell drawn comes from a period mean of a day in the window. |
| MetricsFormFiller.NestedCellsInPeriodColumns | src/main/java/br/com/devlovers/services/report/util/MetricsFormFiller.java:119-120 | All period cells are regular text in one of the six period columns, never at -1. |
| MetricsFormFiller.MeanCellsInPeriodColumns | src/main/java/br/com/devlovers/services/report/util/MetricsFormFiller.java:119-120 | For the maps getMeans produces, every period cell lands in a period column. |
| MetricsFormFiller.DayValueBesideLabel | src/main/java/br/com/devlovers/services/report/util/MetricsFormFiller.java:67-100 | The day loop and the metric loops use the same y recurrence, so a day's value is drawn on the row of its own label. |
| MetricsFormFiller.NoValuesPastDay31 | src/main/java/br/com/devlovers/services/report/util/MetricsFormFiller.java:88-91 | No statistic has a key outside 1..31, so rows labelled past the month's end stay blank. |
| MetricsFormFiller.AddTitle | src/main/java/br/com/devlovers/services/report/util/MetricsFormFiller.java:62-65 | Draws "TEMPERATURA (°C)" or "UMIDADE (%)" in bold at (225, 633) on page 0. |
| MetricsFormFiller.AddDayData | src/main/java/br/com/devlovers/services/report/util/MetricsFormFiller.java:67-77 | Draws exactly the day labels of the rows, one per day. Page 0 is created only when a row is drawn. |
| MetricsFormFiller.AddMetricData | src/main/java/br/com/devlovers/services/report/util/MetricsFormFiller.java:79-102 | Draws exactly the cells of the days that have a value, each in its row at the given column. |
| MetricsFormFiller.AddNestedMetricData | src/main/java/br/com/devlovers/services/report/util/MetricsFormFiller.java:104-128 | For each row, draws the cells of that day's period means, in some iteration order of the map. |
| MetricsFormFiller.AddDayRow | src/main/java/br/com/devlovers/services/report/util/MetricsFormFiller.java:115-121 | Draws one day's period cells, or nothing for a day without means. |
| MetricsFormFiller.AddRow | src/main/java/br/com/devlovers/services/report/util/MetricsFormFiller.java:118-121 | Iterates over every period of the day exactly once and draws its cell. |
| MetricsFormFiller.Fill | src/main/java/br/com/devlovers/services/report/util/MetricsFormFiller.java:40-60 | Draws the title, then the labels, period means, standard deviations (x 486), minima (x 396) and maxima (x 353), all on page 0. The caller's list ends up sorted. |
| MetricsFormCreator.GridRectsAt | src/main/java/br/com/devlovers/services/report/util/MetricsFormCreator.java:28-45 | Exactly 10·n rectangles. Rectangle k is cell k mod 10 of row k / 10, at y = 575.8 − 17.6·(k / 10) with height 17.6. |
| MetricsFormCreator.RowsStackDownward | src/main/java/br/com/devlovers/services/report/util/MetricsFormCreator.java:31-34 | Each row sits exactly 17.6 below the previous one, and the grid's bottom is the last row's y minus 17.6. |
| MetricsFormCreator.CellsLeftToRight | src/main/java/br/com/devlovers/services/report/util/MetricsFormCreator.java:18-22 | The ten cells run left to right, each within 0.2 of where the previous one ends, up to x = 566.4. |
| MetricsFormCreator.DrawRow | src/main/java/br/com/devlovers/services/report/util/MetricsFormCreator.java:39-45 | Draws the ten cells of CELL_DIMENSIONS at the row's y, in order. |
| MetricsFormCreator.DrawRows | src/main/java/br/com/devlovers/services/report/util/MetricsFormCreator.java:28-37 | Draws exactly the grid's 10·n rectangles and returns 575.8 − 17.6·n. n ≤ 0 draws nothing and adds no page. |
| MetricsFormCreator.Create | src/main/java/br/com/devlovers/services/report/util/MetricsFormCreator.java:24-26 | Returns the grid bottom. Page 0 is added only when the document has no pages. |
| Header.TitleNamesType | src/main/java/br/com/devlovers/services/report/util/HeaderFiller.java:31-32 | The two titles differ, so the title tells the reading type. |
| Header.HeaderLayout | src/main/java/br/com/devlovers/services/report/util/HeaderFiller.java:21-30 | Seven draws on page 0 at size 11, of which only the fourth (the title) is bold. Period, branch and sector share x and step down by 18 points. Function, type and patrimony share y and run left to right. |
| Header.HeaderReadsBack | src/main/java/br/com/devlovers/services/report/util/HeaderFiller.java:37-68 | In order, the draws are the period, the branch code, the sector, the title, the function code, the equipment type and the patrimony. Each reads back as its field; a non-negative patrimony reads back as a number. |
| Header.InsertPlace | src/main/java/br/com/devlovers/services/report/util/HeaderFiller.java:46-57 | Draws the period, the branch and the sector. |
| Header.InsertTitle | src/main/java/br/com/devlovers/services/report/util/HeaderFiller.java:59-62 | Draws the type's title in bold at (75, 700). |
| Header.InsertDeviceDetails | src/main/java/br/com/devlovers/services/report/util/HeaderFiller.java:64-68 | Draws the function at (95, 665), the type at (245, 665) and the patrimony at (460, 665). |
| Header.Fill | src/main/java/br/com/devlovers/services/report/util/HeaderFiller.java:37-44 | Appends exactly the seven header draws, in order, and creates page 0 if there is none. |
| Calendar.LocalDateHourLocate | src/main/java/br/com/devlovers/services/report/util/AnalyticsCreator.java:247-249 | The local date and hour of an instant place it within that hour of that day. |
| Calendar.Generate | src/main/java/br/com/devlovers/util/DateRangePicker.java:14-25 | Returns the consecutive dates from the start date to the end date, ascending and without gaps. The list is empty exactly when the start is after the end, and its length is the inclusive day count. |
| Calendar.GetNumberOfDays | src/main/java/br/com/devlovers/util/DateRangePicker.java:27-36 | The counting loop returns end − start + 1 when start ≤ end, and 0 otherwise. |
| Calendar.GetMoment | src/main/java/br/com/devlovers/util/DateRangePicker.java:38-44 | The instant is local midnight of the date at −03:00. |
| Calendar.GetMomentIncreasing | src/main/java/br/com/devlovers/util/DateRangePicker.java:38-44 | A later date's moment is at least one day later. |
| Calendar.DayMonthFields | src/main/java/br/com/devlovers/services/ReportService.java:121-123 | "dd" + separator + "MM" is five characters whose fields read back as the day and the month. |
| Calendar.DayMonthDetermines | src/main/java/br/com/devlovers/services/ReportService.java:121-123 | Equal "dd.MM" texts mean equal days and months. |
| Calendar.FormatPeriodFields | src/main/java/br/com/devlovers/services/report/util/InfoParagraphInserter.java:144-148 | The period reads "dd/MM a dd/MM de yyyy", zero-padded, with the end date's year. |
| Common.NatStrValue | src/main/java/br/com/devlovers/services/report/util/HeaderFiller.java:67 | String.valueOf of a number reads back as the number. |
| Common.IndexOf | src/main/java/br/com/devlovers/services/SignatureService.java:57 | indexOf gives −1 exactly when the character is absent, and otherwise its first position. |
| Common.SplitJoin | src/main/java/br/com/devlovers/services/report/model/Template.java:93 | Splitting on a character loses nothing: joining the pieces back gives the input. |
| Common.JavaSplitTwoPieces | src/main/java/br/com/devlovers/services/report/model/Template.java:93 | A head and a tail around one separator split into both pieces, or the head alone when the tail is empty. |
| Base64.DecodeEncode | src/main/java/br/com/devlovers/services/ReportService.java:110-118 | Decoding the Base64 of any bytes gives them back. |
| Base64.EncodeShape | src/main/java/br/com/devlovers/services/ReportService.java:114 | The encoding is alphabet characters followed by at most two '=', and it has no comma. |
| Base64.DecodeUnitsDefined | src/main/java/br/com/devlovers/domain/signature/validations/PictureValidator.java:30 | Unpadded alphabet text decodes exactly when its length is not 1 more than a multiple of 4. |
| Base64.PatternDecodes | src/main/java/br/com/devlovers/domain/signature/validations/PictureValidator.java:28-33 | Text matching the payload pattern decodes exactly when its padding agrees with its length. |
| Pdf.Document.Load | src/main/java/br/com/devlovers/services/report/model/Template.java:36-44 | The loaded template has its pages, no draws yet, and is open. |
| Pdf.Document.GetOrCreateFirstPage | src/main/java/br/com/devlovers/services/report/util/MetricsFormCreator.java:61-69 | Returns page 0, adding a page only when there are none. |
| Pdf.Document.DrawTextOn | src/main/java/br/com/devlovers/services/report/util/InfoParagraphInserter.java:113 | Appends one text draw on the given page and adds no page. |
| Pdf.Document.DrawText | src/main/java/br/com/devlovers/services/report/util/MetricsFormFiller.java:154-169 | Appends one text draw on page 0. |
| Pdf.Document.DrawRect | src/main/java/br/com/devlovers/services/report/util/MetricsFormCreator.java:47-59 | Appends one rectangle on page 0. |
| Pdf.Document.DrawImage | src/main/java/br/com/devlovers/services/report/model/Template.java:73-78 | Appends one image on page 0. |
| Pdf.Document.AddPage | src/main/java/br/com/devlovers/services/report/util/InfoParagraphInserter.java:127-128 | Adds one page. |
| Pdf.Document.Close | src/main/java/br/com/devlovers/services/ReportService.java:103 | Closes the document and keeps its content. |
| Template.SignatureFile | src/main/java/br/com/devlovers/services/report/model/Template.java:92-95 | Without a comma, split gives no second piece and the result is the index error. Its partner SignatureFileOfServedUri states the success case. |
| Template.SignatureFileOfServedUri | src/main/java/br/com/devlovers/services/report/model/Template.java:92-95 | The data URI a stored signature is served as decodes back to the image's bytes. An empty image fails, because its empty trailing piece is dropped. |
| Template.ParagraphStartsOnFirstPage | src/main/java/br/com/devlovers/services/report/model/Template.java:70-86 | For up to 15 rows, the charts clear the signature slot, and the paragraph starts above the bottom margin on the first page. |
| Template.ReportTemplate.constructor | src/main/java/br/com/devlovers/services/report/model/Template.java:36-44 | The template document as loaded, open and with nothing drawn. |
| Template.ReportTemplate.CreateMetricsForm | src/main/java/br/com/devlovers/services/report/model/Template.java:46-50 | Draws the grid for numberOfDays rows and returns its bottom. |
| Template.ReportTemplate.FillHeader | src/main/java/br/com/devlovers/services/report/model/Template.java:52-56 | Draws the seven header texts. |
| Template.ReportTemplate.FillMetricsForm | src/main/java/br/com/devlovers/services/report/model/Template.java:58-63 | Sorts the caller's readings and draws the title and cells. |
| Template.ReportTemplate.InsertChartsAndSignature | src/main/java/br/com/devlovers/services/report/model/Template.java:65-81 | Returns the cursor lowered by exactly 95. Draws the frequency chart at (70, y′) and the trend chart at (325, y′), both 200×100, then the signature at (70, 80), 200×65. When the signature fails, the charts are already drawn. |
| Template.ReportTemplate.InsertInfoParagraph | src/main/java/br/com/devlovers/services/report/model/Template.java:83-90 | Writes the paragraph from (25, y − 25) with a maximum width of 550. |
| ReportService.ValidatePeriod | src/main/java/br/com/devlovers/services/ReportService.java:49-57 | The period is accepted exactly when 0 ≤ end − start ≤ 14. Above 14 and below 0 fail, each with its own message. |
| ReportService.AcceptedPeriodFitsFirstPage | src/main/java/br/com/devlovers/services/ReportService.java:49-57 | For every accepted period, the charts clear the signature and the paragraph starts above the bottom margin. |
| ReportService.QueryWindowMeans | src/main/java/br/com/devlovers/services/ReportService.java:66-69 | An instant is in the window exactly when its local date is between the start and end dates, and, on the end date, no later than 3 minutes before midnight. |
| ReportService.FileNameFields | src/main/java/br/com/devlovers/services/ReportService.java:120-135 | The name is "Relatório de " + the type code + " " + dd.MM + " a " + dd.MM + " " + sector + " " + equipment type, at the stated positions. |
| ReportService.TypeInitialInName | src/main/java/br/com/devlovers/services/ReportService.java:125-126 | The letter after the prefix is 't' for temperature and 'h' for humidity. |
| ReportService.FileNameDeterminesTypeAndDates | src/main/java/br/com/devlovers/services/ReportService.java:120-135 | Equal names mean equal types, and equal days and months of the start and end dates. |
| ReportService.OneDayFileName | src/main/java/br/com/devlovers/services/ReportService.java:120-135 | When start equals end, the date token appears twice. |
| ReportService.EncodedFileRoundTrip | src/main/java/br/com/devlovers/services/ReportService.java:98 | The file starts with "data:application/pdf;base64,", whose comma is the first in the file, and the text after it decodes back to the saved bytes. |
| ReportService.DrawForm | src/main/java/br/com/devlovers/services/ReportService.java:87-93 | Uses the same day count for the grid and the cells. Draws the grid, header, title, cells and charts, plus the signature when it decodes. |
| ReportService.EncodeAndClose | src/main/java/br/com/devlovers/services/ReportService.java:96-118 | The document is closed on both the success and the save-failure paths. On success the report is the file name and the encoded file. |
| ReportService.DrawReport | src/main/java/br/com/devlovers/services/ReportService.java:87-94 | Everything the report draws, in order. The paragraph starts at gridBottom(n) − 95 − 25 and is drawn only when the signature decodes. |
| ReportService.GenerateReport | src/main/java/br/com/devlovers/services/ReportService.java:85-108 | One report per device: the full drawing, the file name and the encoded file. A signature failure leaves the document open; a save failure still closes it. |
| ReportService.ReportOfDevice | src/main/java/br/com/devlovers/services/ReportService.java:66-79 | A device whose readings in the window are empty produces no report. Otherwise the result is its report or its failure. |
| ReportService.WithReadingsMeans | src/main/java/br/com/devlovers/services/ReportService.java:73-78 | The devices reported on are exactly those with readings in the window. |
| ReportService.CollectReports | src/main/java/br/com/devlovers/services/ReportService.java:59-82 | With no device to report on the result is empty. A bad signature fails the whole request. Otherwise, report k is named after device k, in the model's device order. |
| ReportService.GetAllReports | src/main/java/br/com/devlovers/services/ReportService.java:46-83 | A rejected period fails before any lookup. A failed signature lookup then fails the request whatever the devices. Otherwise the result is the reports of the devices with readings. |
| ReportService.LookedUpSignatureDraws | src/main/java/br/com/devlovers/services/ReportService.java:59-77 | A signature found and read is drawn as its stored bytes. An empty signature file fails every report. |
| SecurityFilter.RecoverToken | src/main/java/br/com/devlovers/infra/security/SecurityFilter.java:119-122 | The token is the text after "Bearer " (case-sensitive) exactly when the header is present and starts with it. Otherwise there is none. |
| SecurityFilter.RecoverTokenRoundTrip | src/main/java/br/com/devlovers/infra/security/SecurityFilter.java:119-122 | "Bearer " + t gives t; "bearer " gives none. |
| SecurityFilter.ApiKeyOutcome | src/main/java/br/com/devlovers/infra/security/SecurityFilter.java:61-66 | A known key passes on, and an unknown key is 401 with "Chave de API inválida". |
| SecurityFilter.TokenOutcome | src/main/java/br/com/devlovers/infra/security/SecurityFilter.java:68-93 | An invalid token is 403. An expired token, an empty subject and an unknown user are 401. A null subject throws. Only a known user passes on. |
| SecurityFilter.ApiKeyTakesPrecedence | src/main/java/br/com/devlovers/infra/security/SecurityFilter.java:52-56 | With an X-API-KEY header, the Authorization header changes nothing. |
| SecurityFilter.NoCredentialsPassOn | src/main/java/br/com/devlovers/infra/security/SecurityFilter.java:47-59 | With neither header, the request passes on unauthenticated. Every rejection is 401 or 403. |
| SecurityFilter.UserAuthorities | src/main/java/br/com/devlovers/infra/security/SecurityFilter.java:72-80 | A known user runs with its role's authorities, which include ROLE_ADMIN exactly for ADMIN. |
| SecurityFilter.Exchange.HandleException | src/main/java/br/com/devlovers/infra/security/SecurityFilter.java:95-117 | Sets the status and the JSON content type, and makes the error body with the request's path. |
| SecurityFilter.Exchange.AuthenticateWithApiKeyAsWritten | src/main/java/br/com/devlovers/infra/security/SecurityFilter.java:61-66 | As written: the status is 401 with a JSON content type, and the "Chave de API inválida" body is written, whether or not the key is known. A known key also goes on down the chain as its device. |
| SecurityFilter.Exchange.AuthenticateWithApiKey | src/main/java/br/com/devlovers/infra/security/SecurityFilter.java:61-66 | The intended behaviour: the response changes exactly as the API-key outcome calls for. |
| SecurityFilter.Exchange.AuthenticateWithToken | src/main/java/br/com/devlovers/infra/security/SecurityFilter.java:68-93 | The intended behaviour: the response changes exactly as the token outcome calls for. |
| SecurityFilter.Exchange.AuthenticateWithTokenAsWritten | src/main/java/br/com/devlovers/infra/security/SecurityFilter.java:70-83 | As written: for a non-empty subject the status is 401 and "Usuário não encontrado" is written, whether or not the user is found, and a known user also goes on down the chain as its account with its role's authorities. Other tokens get their outcome. |
| SecurityFilter.Exchange.Filter | src/main/java/br/com/devlovers/infra/security/SecurityFilter.java:45-59 | Dispatches on the headers to the intended authenticators: the response changes exactly as the filter's decision calls for. |
| SecurityFilter.EagerStatusExample | src/main/java/br/com/devlovers/infra/security/SecurityFilter.java:62-65 | As written, a known key on a fresh exchange ends with the request chained, the status 401 and the "Chave de API inválida" body written. |
| SecurityFilter.DeferredStatusExample | src/main/java/br/com/devlovers/infra/security/SecurityFilter.java:62-65 | As intended, the same request is chained with the status unset and nothing written. |
| SecurityFilter.EagerTokenExample | src/main/java/br/com/devlovers/infra/security/SecurityFilter.java:72-83 | As written, a known user's token ends with the request chained, the status 401 and "Usuário não encontrado" written. |
| SecurityFilter.DeferredTokenExample | src/main/java/br/com/devlovers/infra/security/SecurityFilter.java:72-83 | As intended, the same request is chained with the status unset and nothing written. |
| Signature.ExtractFileExtension | src/main/java/br/com/devlovers/services/SignatureService.java:131-138 | The text between "data:image/" and the first ';', or "" without that prefix. With the prefix and no ';', it is an index error. |
| Signature.Payload | src/main/java/br/com/devlovers/services/SignatureService.java:57 | The text after the first ',', or the whole input when there is none. |
| Signature.StoredFileNameParts | src/main/java/br/com/devlovers/services/SignatureService.java:60-61 | The name is uuid + "_" + original name + "." + extension, and each part can be found again. |
| Signature.ExtensionRoundTrip | src/main/java/br/com/devlovers/services/SignatureService.java:131-137 | The extension of "data:image/" + ext + ";base64," + b is ext. |
| Signature.PayloadRoundTrip | src/main/java/br/com/devlovers/services/SignatureService.java:57 | The payload of such a URI is b. |
| Signature.PrepareSignature | src/main/java/br/com/devlovers/services/SignatureService.java:55-61 | Succeeds exactly when the extension can be taken and the payload decodes. It stores the decoded bytes under the composed file name. |
| Signature.SaveThenServe | src/main/java/br/com/devlovers/services/SignatureService.java:55-61 | Saving a served URI and serving it again gives the same URI. |
| Signature.LookupSignature | src/main/java/br/com/devlovers/services/SignatureService.java:110-128 | Succeeds exactly when the name is found and its file can be read. A missing name is "Assinatura de nome <name> não encontrada"; an unreadable file is "Falha ao carregar assinatura". |
| Signature.SaveThenLookUp | src/main/java/br/com/devlovers/services/SignatureService.java:110-128 | A signature saved from a data URI and looked up by its name is served as the same URI. |
| Signature.MatchingType | src/main/java/br/com/devlovers/domain/signature/validations/PictureValidator.java:11-12 | Finds an image type whose prefix the value matches, exactly when one exists. |
| Signature.PatternHasNoComma | src/main/java/br/com/devlovers/domain/signature/validations/PictureValidator.java:12 | A payload matching the pattern has no comma. |
| Signature.SplitOfMatch | src/main/java/br/com/devlovers/domain/signature/validations/PictureValidator.java:12 | A matching value splits on ',' into exactly the header and the whole payload. |
| Signature.MatchedPayload | src/main/java/br/com/devlovers/domain/signature/validations/PictureValidator.java:12 | A matching value is the prefix of an accepted type followed by a payload of the pattern. |
| Signature.ValidOfMatch | src/main/java/br/com/devlovers/domain/signature/validations/PictureValidator.java:24-33 | A matching value is valid exactly when its payload decodes. |
| Signature.MatchedParts | src/main/java/br/com/devlovers/domain/signature/validations/PictureValidator.java:11-12 | "data:image/" + type + ";base64," + p matches exactly when p is one or more alphabet characters followed by at most two '='. |
| Signature.IsValidPictureMeans | src/main/java/br/com/devlovers/domain/signature/validations/PictureValidator.java:19-35 | Validity is the pattern plus a padding that agrees with the length, so isValid never throws. |
| Signature.IsValidPictureRejects | src/main/java/br/com/devlovers/domain/signature/validations/PictureValidator.java:20-26 | null, "" and a value without an accepted prefix are rejected. |
| Signature.ServedUriIsValid | src/main/java/br/com/devlovers/domain/signature/validations/PictureValidator.java:19-35 | The URI of a non-empty stored image of an accepted type is valid. |
| IpValidator.IsValidIp | src/main/java/br/com/devlovers/domain/device/validations/IPAddressValidator.java:15-20 | null is accepted. |
| IpValidator.OctetPatternMeans | src/main/java/br/com/devlovers/domain/device/validations/IPAddressValidator.java:10 | A group matches exactly when it is 1 to 3 ASCII digits with a value ≤ 255. Leading zeros are allowed. |
| IpValidator.OctetExamples | src/main/java/br/com/devlovers/domain/device/validations/IPAddressValidator.java:10 | "001", "0" and "255" match. "256", "0256", "", "+1", " 1" and "1a" do not. |
| IpValidator.DottedMatches | src/main/java/br/com/devlovers/domain/device/validations/IPAddressValidator.java:10 | Four matching groups joined by '.' match. |
| IpValidator.MatchIsDotted | src/main/java/br/com/devlovers/domain/device/validations/IPAddressValidator.java:10 | A matching value is exactly four dot-separated groups. |
| IpValidator.PrintedAddressIsValid | src/main/java/br/com/devlovers/domain/device/validations/IPAddressValidator.java:10-19 | Any address printed from four numbers ≤ 255 is valid. |
| IpValidator.ThreeGroupsRejected | src/main/java/br/com/devlovers/domain/device/validations/IPAddressValidator.java:10 | Three groups are rejected. |
| IpValidator.EmptyGroupRejected | src/main/java/br/com/devlovers/domain/device/validations/IPAddressValidator.java:10 | An empty group is rejected. |
| IpValidator.LeadingSpaceRejected | src/main/java/br/com/devlovers/domain/device/validations/IPAddressValidator.java:10 | Leading whitespace is rejected. |
| IpValidator.EmptyValueRejected | src/main/java/br/com/devlovers/domain/device/validations/IPAddressValidator.java:15-19 | null passes and "" fails. |
| FontCache.GetOrLoad | src/main/java/br/com/devlovers/cache/FontCache.java:18-25 | After the call the path is cached with the returned font. It loads only when the path is absent, and fails only when it is absent and unreadable. |
| FontCache.CacheOnlyGrows | src/main/java/br/com/devlovers/cache/FontCache.java:16-25 | No entry is removed or replaced, and only the requested key can be added. |
| FontCache.SecondCallHitsCache | src/main/java/br/com/devlovers/cache/FontCache.java:19-24 | A repeat call returns the identical font without loading. |
| FontCache.FontBelongsToFirstDocument | src/main/java/br/com/devlovers/cache/FontCache.java:18-25 | The key ignores the document: a font loaded for one document is returned for another. |
| FontCache.FontCache.constructor | src/main/java/br/com/devlovers/cache/FontCache.java:16 | The cache starts empty. |
| FontCache.FontCache.GetFont | src/main/java/br/com/devlovers/cache/FontCache.java:18-25 | Updates the cache as the lookup does, and counts one load only on a miss. |
| Users.Authorities | src/main/java/br/com/devlovers/domain/user/User.java:91-98 | ADMIN gets [ROLE_ADMIN, ROLE_USER] and any other role [ROLE_USER], so ROLE_USER is always present. |
| Users.AuthorityNamesDistinct | src/main/java/br/com/devlovers/domain/user/User.java:93-97 | The authorities of a role have distinct names. |
| Users.User.constructor | src/main/java/br/com/devlovers/domain/user/User.java:53-57 | Sets the login, the id, the password and the role. |
| Users.User.AccountFlags | src/main/java/br/com/devlovers/domain/user/User.java:110-128 | The four account flags are all true. |
| Users.User.Update | src/main/java/br/com/devlovers/domain/user/User.java:130-134 | The password is replaced exactly when the DTO's password is non-null, and nothing else changes. |
| Users.UpdateTwice | src/main/java/br/com/devlovers/domain/user/User.java:130-134 | Applying the same update twice equals applying it once. |
| DeviceUpdate.UpdateErrorCases | src/main/java/br/com/devlovers/domain/device/DeviceById.java:74-80 | The update fails exactly when a branch or function name is not the name of a constant. An invalid branch is reported first. |
| DeviceUpdate.UpdateOverwrites | src/main/java/br/com/devlovers/domain/device/DeviceById.java:69-125 | Each non-null field overwrites its entity field. The name does so even when a later field fails. |
| DeviceUpdate.UpdateKeepsNullFields | src/main/java/br/com/devlovers/domain/device/DeviceById.java:69-125 | Each null field leaves its entity field unchanged. |
| DeviceUpdate.AllNullIsNoOp | src/main/java/br/com/devlovers/domain/device/DeviceById.java:69-125 | An all-null DTO changes nothing. |
| DeviceUpdate.UpdateIdempotent | src/main/java/br/com/devlovers/domain/device/DeviceById.java:69-125 | update(d) followed by update(d) equals update(d). |
| DeviceUpdate.UpdatePartialOnInvalidName | src/main/java/br/com/devlovers/domain/device/DeviceById.java:70-80 | An invalid branch or function name throws after the name, and the branch before the function, have already been written. The later fields stay untouched. |
| DeviceUpdate.DeviceById.constructor | src/main/java/br/com/devlovers/domain/device/DeviceById.java:48-67 | Copies the device's fields. |
| DeviceUpdate.DeviceById.Update | src/main/java/br/com/devlovers/domain/device/DeviceById.java:69-125 | The descriptive fields become the outcome of the update. id, apiKey, ownerId and isActive are constants it cannot change. |
| DeviceUpdate.DeviceByUserId.constructor | src/main/java/br/com/devlovers/domain/device/DeviceByUserId.java:64-82 | Copies the device's fields under the key. |
| DeviceUpdate.DeviceByUserId.Update | src/main/java/br/com/devlovers/domain/device/DeviceByUserId.java:84-140 | The same outcome as DeviceById. key, apiKey and isActive are constants it cannot change. |
| DeviceUpdate.UpdateBoth | src/main/java/br/com/devlovers/domain/device/DeviceByUserId.java:84-140 | Two records whose descriptive fields agree still agree after the same DTO, with the same error. |
| Domain.BranchCodeInjective | src/main/java/br/com/devlovers/domain/device/enums/Branch.java:5-17 | Distinct branches have distinct codes. |
| Domain.FunctionCodeInjective | src/main/java/br/com/devlovers/domain/device/enums/Function.java:5-16 | Distinct functions have distinct codes. |

## Left out

- Chart rendering (`ChartsCreator`) is not part of this model. The two chart images are parameters of the report methods. The temporary files they pass through, `ImageInserter` and PDFBox's content streams are left out; a draw is one entry in the document's log.
- Iteration order of `HashMap`: the order in which the period means of a day are drawn is chosen by the model. `MetricsFormFiller.EnumeratesRows` states only that every period of the day is visited exactly once.
- Floating point: values are reals. `%.2f` and its locale are the parameter `fmt`. The square root in the standard deviation is the parameter `sqrt`. IEEE rounding of the 0.11 and 17.6 steps is not modelled; they are exact hundredths.
- Fonts: glyph widths are the parameter `widthOf`. The branch that loads no font is not modelled.
- Paragraph.WriteParagraph: models the intended page break, in which the lines go on on a new page. As written, the source fails at the break (Findings). That failure is modelled only by `Paragraph.WriteParagraphAsWritten`. Its effect on the pipeline is not modelled: `generateReport` failing before its `try` and leaving the document open, and `getAllReports` failing. `Paragraph.InsertParagraph`, `Template.ReportTemplate.InsertInfoParagraph`, `ReportService.DrawReport` and `ReportService.GenerateReport` use the intended writer. Content streams are not modelled; a draw names its page.
- Reactive pipelines (Mono/Flux) and concurrency: reports are produced one device after another, in list order. `Flux.flatMap` emits the reports in the order their generations complete, not in device order; the model's device order is one of the orders the source can produce. The static map of `FontCache` is used sequentially only.
- The repositories are parameters: the result of the signature lookup (`Signature.LookupSignature` models how it is formed from the stored row and the file read), the device list, `findReadings`, `deviceExists` and `findUser`. Cassandra, the file system and e-mail are not part of this model.
- Devices without working ranges: the four bounds are nullable in the source (`Double` with no `@NotNull`), and a null bound of the report's reading type makes report generation throw when it is unboxed. That fails `generateReport` before its `try` and with it the whole `getAllReports` request. The model's `Domain.Device` has all four bounds present, so `ReportService.ReportOfDevice`, `ReportService.CollectReports` and `ReportService.GetAllReports` do not capture that failure.
- `DateRangePicker.generate` converts with the system's default zone. Here that zone is the parameter `systemOffset`.
- Saving the PDF is the parameter `save`, which may fail. A failure inside `close()` ("Falha ao fechar relatório") is not modelled.
- Template.ReportTemplate.InsertInfoParagraph: states the text's shape (`Paragraph.TextShape`: the opening, the quantity and the note) rather than its full wording, which `Paragraph.InsertParagraph` states.
- ReportService.DrawReport: states the paragraph's text through `Paragraph.TextShape`, as above.
- ReportService.GenerateReport: states the paragraph's text through `Paragraph.TextShape`, as above.
- ReportService.ReportOfDevice: promises, for a report, its file name, its data-URI prefix and that its payload decodes. It does not promise the PDF's bytes, which come from `save`.
- ReportService.CollectReports: promises the same of each report (`ReportsFor`), not the bytes.
- ReportService.GetAllReports: promises the same of each report (`ReportsFor`), not the bytes.
- The `Instant.now()` timestamp of the error body, and the fallback body used when JSON serialisation fails, are not modelled.
- SecurityFilter.Exchange.AuthenticateWithApiKey: models the intended behaviour, in which a known key leaves the response untouched. As written, the source sets 401 on every API-key request and writes the "Chave de API inválida" body after the chain (Findings; `SecurityFilter.Exchange.AuthenticateWithApiKeyAsWritten`).
- SecurityFilter.Exchange.AuthenticateWithToken: models the intended behaviour, in which a known user leaves the response untouched. As written, the source sets 401 before the user lookup and writes "Usuário não encontrado" after the chain (Findings; `SecurityFilter.Exchange.AuthenticateWithTokenAsWritten`).
- SecurityFilter.Exchange.Filter: dispatches to the intended authenticators, so for a known key or user it leaves the status and the body untouched. The source, through the authenticators as written, sets 401 and writes an error body on those requests too. A filter over the as-written authenticators is not modelled.
- `TokenService` (JWT), `KeyGeneratorService`, the controllers, exception handlers, configuration and the scheduler are not part of this model. Token validation is the parameter `validate`, whose outcome includes expiry, so no clock is read.
- `SignatureService.saveSignature` and the two lookups: only their pure parts are modelled (`Signature.PrepareSignature`, `Signature.ServedUri`, `Signature.LookupSignature`). Writing and reading the file and the repository rows are left out; whether the file can be read is a parameter.
- `User.getUsername` and `User.getId` are modelled as `Users.User.Username` and `Users.User.Id`. They only return fields, so they carry no contract.

## Findings

| source | as written | input that shows it | evidently intended | confidence | as-written member | corrected member |
|---|---|---|---|---|---|---|
| src/main/java/br/com/devlovers/infra/security/SecurityFilter.java:61-66 | The argument of `switchIfEmpty(handleException(...))` is evaluated before the lookup runs, so the status is set to 401, with a JSON content type, on every request that carries an API key. `flatMap(device -> chain.filter(exchange))` completes empty, so `switchIfEmpty` then also writes the "Chave de API inválida" body after the chain. | A request with an X-API-KEY that belongs to a device: it is passed on down the chain with its status set to 401, and the error body is written after it. | The response is touched only when the key is unknown. The emptiness of the lookup must be tested before chaining, for example with `hasElement()` and then either the chain or the error. `Mono.defer` alone would still write the error after every successful chain. | not executed | SecurityFilter.Exchange.AuthenticateWithApiKeyAsWritten, SecurityFilter.EagerStatusExample | SecurityFilter.Exchange.AuthenticateWithApiKey, SecurityFilter.DeferredStatusExample |
| src/main/java/br/com/devlovers/infra/security/SecurityFilter.java:70-83 | The same pattern on the token path: the "Usuário não encontrado" error is built before the user lookup, and written after the chain for a known user completes empty. | A valid token whose subject is a stored user: the request is passed on with status 401, and "Usuário não encontrado" is written after it. | The response is touched only when no user has that login, tested before chaining as above. | not executed | SecurityFilter.Exchange.AuthenticateWithTokenAsWritten, SecurityFilter.EagerTokenExample | SecurityFilter.Exchange.AuthenticateWithToken, SecurityFilter.DeferredTokenExample |
| src/main/java/br/com/devlovers/services/report/util/InfoParagraphInserter.java:104-110 | When the cursor is at or below the bottom margin before a line, the writer ends the text, closes the content stream and calls `beginText` on the closed stream. That call fails before `addNewPageAndResetCursor` adds a page, so the paragraph, and with it `generateReport`, fails. | A paragraph with more lines than fit between its start and the margin, for example two lines starting one line pitch (15 points) above the margin (`Paragraph.OverflowExample`). | A new page is added, a content stream is opened on it, and the remaining lines go on from its top. | not executed | Paragraph.WriteParagraphAsWritten, Paragraph.OverflowIsPageBreak | Paragraph.WriteParagraph, Paragraph.LinePages |
