# prism-insight core in Dafny

prism-insight watches the Korean stock market. A trigger batch picks stocks
that are moving. Language-model agents write an analysis report for each one,
and the reports are turned into Telegram summaries and PDFs. A tracking agent
reads each report's trading scenario. It buys into a simulated portfolio of at
most ten slots and decides every day whether to sell each holding. When
auto-trading is on, a brokerage client places the same orders on a real
account. Around these sit a web front end, a conversational Telegram bot, a
dashboard data generator, a portfolio reporter and a stock catalogue.

This project models the deterministic core of that system:

- the sell ladders of the base and the enhanced tracking agent;
- the volatility-scaled stop and target prices and the trend buckets;
- the tables the tracking agents keep and how a buy, a sell, a refresh and a
  batch of reports change them;
- the order routing, quantities, guards and result records of the brokerage
  client;
- the JSON repair passes, the Telegram escaping and message splitting, and the
  report-file name parsers;
- the language-model reply cleaners, the validators, the dashboard summaries,
  the catalogue maps and the market-day check.

There is one Dafny module per source file, plus shared modules: `Wrappers`
(Option), `Text` (Python string operations), `Format` (number formats), `PyValue`
(JSON values), `ReSub` (one `re.sub` pass) and `Files` (directory listings).

These become inputs or parameters, never calls:

- the clock;
- the brokerage's and the chat service's answers;
- files and database rows;
- the outcomes of language-model and subprocess calls.

Code that updates state in place becomes a class whose methods are proved to
make exactly the transitions of specification functions. The lemmas are stated
about those functions. Prices and rates are exact reals.

## Model

| member | source | states |
|---|---|---|
| TrackingRules.Stem | stock_tracking_agent.py:329 | `Path(p).stem` holds no '/' |
| TrackingRules.TickerPatternReadsBack | stock_tracking_agent.py:332-338 | a stem `{alnum ticker}_{name without '_'}` followed by nothing or '_' yields exactly that ticker and name |
| TrackingRules.ExtractTickerInfo | stock_tracking_agent.py:317-349 | the pattern's groups when the stem matches; two empty strings when the stem has no '_'; a non-empty pair only from a stem holding '_' |
| TrackingRules.ParsePriceValue | stock_tracking_agent.py:816-858 | a number is returned as itself, a string goes through the text parser, anything else gives 0 |
| TrackingRules.ParsePriceIgnoresCommas | stock_tracking_agent.py:830-832 | dropping commas beforehand changes nothing |
| TrackingRules.ParsePriceNoDigits | stock_tracking_agent.py:850-856 | a string without any digit parses to 0 |
| TrackingRules.ParsePriceOfRange | stock_tracking_agent.py:834-848 | two digit strings around '-' or '~' with any whitespace parse to their midpoint |
| TrackingRules.ParsePriceOfWholeRange | stock_tracking_agent.py:834-848 | `"{a}-{b}"` for whole numbers parses to (a + b) / 2 |
| TrackingRules.MaxPortfolioSize | stock_tracking_agent.py:887-893 | the scenario's limit, a string converted by `int()`, the slot count when absent or unparsable |
| TrackingRules.AtPortfolioLimit | stock_tracking_agent.py:894 | defined exactly when the limit is a number, and then `slots >= limit` |
| TrackingRules.SameSectorCount | stock_tracking_agent.py:552 | raises (None) exactly when a truthy entry or the sector is not a string; otherwise at most the number of entries |
| TrackingRules.SameSectorCountIsCount | stock_tracking_agent.py:552 | when it does not raise, the count is the number of entries equal to the sector ignoring case |
| TrackingRules.SectorDiverse | stock_tracking_agent.py:522-568 | no limit for an empty or unknown sector or when counting raises |
| TrackingRules.SectorDiverseRule | stock_tracking_agent.py:555-563 | a named sector is refused iff it is held at least 3 times or in at least 30% of the sector entries |
| TrackingRules.SectorDiverseWhenEmpty | stock_tracking_agent.py:538-563 | with no holdings every sector may be bought |
| TrackingRules.SectorRefusedAtThree | stock_tracking_agent.py:555-563 | a sector held three times is refused |
| TrackingRules.CountSameIgnoresCase | stock_tracking_agent.py:552 | lower-casing the sector asked about does not change the count |
| TrackingRules.ProfitRate | stock_tracking_agent.py:1046 | for a positive buy price the rate is positive iff the price rose and negative iff it fell |
| TrackingRules.PeriodOf | stock_tracking_agent.py:1053-1061 | a scenario that is not an object gives the default period |
| TrackingRules.BaseSellDecision | stock_tracking_agent.py:1027-1107 | a zero buy price, an unreadable buy date or an uncomparable stop gives "분석 오류" and no sale |
| TrackingRules.BaseSellDecisionFirstMatch | stock_tracking_agent.py:1063-1100 | with usable inputs the decision is the first rule of the ladder that fires, with its reason, else keep with "계속 보유" |
| TrackingRules.BaseSellsIffSomeRuleFires | stock_tracking_agent.py:1063-1100 | a holding is sold exactly when some rule of the ladder fires |
| TrackingRules.BaseLongTermLossDead | stock_tracking_agent.py:1090-1100 | the 90-day long-term loss rule fires only when the 30-day loss rule before it fires too, so it never decides |
| TrackingRules.BaseTargetErrorAfterStop | stock_tracking_agent.py:1063-1069 | an uncomparable target matters only once the stop is not hit: a hit stop still sells, otherwise the comparison raises |
| TrackingRules.DropTrailingSlashes | stock_tracking_agent.py:329 | a prefix of the path that does not end in '/' |
| TrackingRules.BaseName | stock_tracking_agent.py:329 | the last path component holds no '/' |
| TrackingRules.TickerPattern | stock_tracking_agent.py:332-338 | a match gives an alphanumeric ticker and a name without '_' that open the stem, followed by its end or by '_' |
| TrackingRules.RunEnd | stock_tracking_agent.py:836-852 | the run of matching characters from `i` ends at the first character that does not match |
| TrackingRules.RunEndSpan | stock_tracking_agent.py:836-852 | every character of the run matches |
| TrackingRules.RunEndAt | stock_tracking_agent.py:836-852 | a run that stops at `k` ends at `k` |
| TrackingRules.NumberEnd | stock_tracking_agent.py:852 | `\d+(?:\.\d+)?` at a digit matches at least that digit and stays within the text |
| TrackingRules.NumberValue | stock_tracking_agent.py:854 | `float()` of the matched number is never negative |
| TrackingRules.Pow10 | stock_tracking_agent.py:854 | a power of ten is at least one |
| TrackingRules.FirstRange | stock_tracking_agent.py:835-848 | no value exactly when no position from `i` on starts a range; a value found is not negative |
| TrackingRules.FirstNumber | stock_tracking_agent.py:851-854 | no value exactly when no digit follows `i`; a value found is not negative |
| TrackingRules.ParsePriceText | stock_tracking_agent.py:829-856 | the string case never yields a negative price |
| TrackingRules.NoDigitsAfterRemove | stock_tracking_agent.py:831 | dropping commas adds no digit |
| TrackingRules.NoRangeFrom | stock_tracking_agent.py:843-848 | without a range at any later position the search finds none |
| TrackingRules.DigitsRunEnd | stock_tracking_agent.py:836 | a digit string ends the digit run where it ends |
| TrackingRules.NumberAtDigits | stock_tracking_agent.py:836-852 | a digit string followed by neither a digit nor a point is read as its value |
| TrackingRules.NoCommaInRange | stock_tracking_agent.py:831-836 | a range made of digits, white space and a dash holds no comma |
| TrackingRules.ParsePriceAtStart | stock_tracking_agent.py:829-848 | a comma-free text with a range at its start gives that range's midpoint |
| TrackingRules.RangeOfPieces | stock_tracking_agent.py:834-848 | digits, white space, a dash, white space and digits give the two values' midpoint |
| TrackingRules.RangeAtParts | stock_tracking_agent.py:836-846 | located pieces of the range pattern give the midpoint at position 0 |
| TrackingRules.SpaceIsNoNumber | stock_tracking_agent.py:836 | white space ends a number |
| TrackingRules.JoinHasSeparator | stock_tracking_agent.py:340-345 | joining two or more pieces puts the separator in the result |
| TrackingRules.SectorsOf | stock_tracking_agent.py:538-550 | at most one sector per stored scenario |
| TrackingRules.SectorsOfSnoc | stock_tracking_agent.py:541-550 | the rows are read in order, and a row adds its `sector` exactly when it is an object that has one |
| TrackingRules.CountSame | stock_tracking_agent.py:552 | the count never exceeds the number of entries |
| TrackingRules.SameSectorCountSnoc | stock_tracking_agent.py:552 | the count read one entry at a time: a truthy non-string entry makes the whole count raise |
| TrackingRules.LowerIdempotent | stock_tracking_agent.py:552 | lower-casing twice is lower-casing once |
| TrackingRules.FirstBaseFiring | stock_tracking_agent.py:1063-1100 | the rule found fires and none before it does; none found exactly when none fires |
| TrackingRules.FirstBaseFiringFrom | stock_tracking_agent.py:1063-1100 | the same, from position `i` on |
| TrackingRules.BaseHit | stock_tracking_agent.py:1063-1100 | a rule that fires ends the search |
| TrackingRules.BaseSkip | stock_tracking_agent.py:1063-1100 | a rule that does not fire passes to the next |
| TrackingRules.BaseLadderRules | stock_tracking_agent.py:1063-1100 | the nine rules in the order of the code: stop, target, the two short-term rules, +10%, -5%, 30 days, 60 days, long-term |
| TrackingRules.BaseSellDecisionLadder | stock_tracking_agent.py:1027-1100 | with usable inputs: the stop check first, then the rest of the ladder |
| TrackingRules.BaseStopFirst | stock_tracking_agent.py:1063-1065 | a hit stop is the first rule to fire |
| TrackingRules.BaseAfterStopSellsIfAnyFires | stock_tracking_agent.py:1067-1100 | after the stop check, a sale exactly when one of the remaining rules fires |
| TrackingRules.BaseAfterStopFirstMatch | stock_tracking_agent.py:1067-1100 | after the stop check, the first remaining rule to fire decides |
| TrackingRules.BaseLadderHead | stock_tracking_agent.py:1067-1083 | the same when one of the first rules after the stop fires |
| TrackingRules.BaseLadderTail | stock_tracking_agent.py:1085-1100 | the same when none of them fires |
| TrackingRules.BaseTailIndex | stock_tracking_agent.py:1085-1100 | past the first five rules the first to fire is -5%, 30 days or 60 days; the long-term rule never is first |
| TrackingAgent.StandardNotices | stock_tracking_agent.py:925-1017 | the buy notice exists exactly when its target, stop and scenario section can be formatted, and then starts with the stock's title; the sell notice starts with "📉 매도: {name}({ticker})" |
| TrackingAgent.StoredPriceOfRow | stock_tracking_agent.py:386-393 | with unique tickers, the stored price of a held ticker is its row's price |
| TrackingAgent.Quote | stock_tracking_agent.py:351-414 | the latest close when there is one; 0 for an unheld ticker without one |
| TrackingAgent.StoreReal | stock_tracking_agent.py:902-919 | a list, an object or an integer outside the signed 64-bit range cannot be bound (`sqlite3` raises, so the buy fails at lines 1022-1025); any other number is stored as a float; text that reads as a float literal is stored as that float (the REAL affinity of the columns declared at lines 286-287); any other text is stored as it is |
| TrackingAgent.StoreRealOverflow | stock_tracking_agent.py:902-919 | a target price of 10^19 cannot be bound, while 2^63 - 1 is stored as a float |
| TrackingAgent.ParseFloatOfInt | stock_tracking_agent.py:902-919 | text that reads as an integer is stored as the same number as a float |
| TrackingAgent.ParseFloatOfDecimal | stock_tracking_agent.py:902-919 | digits, one point and digits read as the whole part plus the fraction digits over ten to their count |
| TrackingAgent.StoreRealOfDecimal | stock_tracking_agent.py:902-919 | a target or stop price written as digits, a point and digits (such as "85000.5") is stored as the float it denotes |
| TrackingAgent.DecimalKept | stock_tracking_agent.py:902-919 | a target price "85000.5" is stored as the float 85000.5 |
| TrackingAgent.GroupedKept | stock_tracking_agent.py:902-919 | a price written with a thousands separator ("85,000") is not a float literal and is stored as text |
| TrackingAgent.GroupedNotFloat | stock_tracking_agent.py:902-919 | digits grouped with commas are never read as a float, so such a price stays text |
| TrackingAgent.WithoutRow | stock_tracking_agent.py:1160-1163 | with unique tickers, deleting a held ticker removes exactly its one row and keeps the others in order |
| TrackingAgent.Buy | stock_tracking_agent.py:860-1025 | a buy never touches the trading history |
| TrackingAgent.BuyInserts | stock_tracking_agent.py:902-1020 | past its checks a buy inserts the new row, then queues the notice and succeeds, or fails with the row kept |
| TrackingAgent.BuyRefused | stock_tracking_agent.py:876-896 | a held ticker, full slots, or a reached or uncomparable portfolio size leave everything unchanged |
| TrackingAgent.BuyFailsCleanly | stock_tracking_agent.py:860-1025 | a failed buy queues nothing and either changes nothing or has added exactly one row |
| TrackingAgent.BuySucceeds | stock_tracking_agent.py:860-1025 | a buy succeeds iff the checks pass, target and stop can be stored and the notice can be built; it then appends exactly the new holding and the notice |
| TrackingAgent.BuyNoticeFailureKeepsRow | stock_tracking_agent.py:920-1025 | when the notice raises after the commit, the row stays although the buy reports failure |
| TrackingAgent.BuyKeepsValid | stock_tracking_agent.py:876-920 | a buy keeps tickers unique and the rows within the slots |
| TrackingAgent.Sell | stock_tracking_agent.py:1109-1185 | a sale succeeds iff the buy price is non-zero and the buy date parses; a failed sale changes nothing |
| TrackingAgent.SellMovesRowToHistory | stock_tracking_agent.py:1127-1177 | a sale removes exactly the holding's row, appends exactly one history row with the sell price and profit rate, and queues one notice |
| TrackingAgent.Refreshed | stock_tracking_agent.py:1224-1240 | only the price changes, except a zero target or stop taken from an object scenario that names one |
| TrackingAgent.RefreshPrice | stock_tracking_agent.py:1214-1220 | the quote when positive, else the stored price |
| TrackingAgent.UpdateStepHold | stock_tracking_agent.py:1271-1280 | a kept holding only gets its price and time stamp stored |
| TrackingAgent.UpdateStepRecords | stock_tracking_agent.py:1242-1270 | a step appends one history row and one notice exactly for the sale it reports, and nothing otherwise |
| TrackingAgent.UpdateStepValid | stock_tracking_agent.py:1211-1280 | a step keeps the tables valid and never adds a row |
| TrackingAgent.UpdateAllRecordsSales | stock_tracking_agent.py:1187-1288 | over the update, history grows by exactly one matching row per sale reported, in order |
| TrackingAgent.UpdateAllQueuesNotices | stock_tracking_agent.py:1187-1288 | one notice is queued per sale, after the earlier queue |
| TrackingAgent.UpdateAllValid | stock_tracking_agent.py:1187-1288 | the update keeps the tables valid and never adds a row |
| TrackingAgent.Analyze | stock_tracking_agent.py:751-814 | a candidate has the file name's ticker and company, is not held, has a positive quote and the sector verdict of the stored scenarios; "보유 중" only for a held ticker |
| TrackingAgent.BuyPhaseSkips | stock_tracking_agent.py:1440-1500 | a report that is not an entry changes no table, or stops the batch |
| TrackingAgent.BuyPhaseValid | stock_tracking_agent.py:1440-1500 | the buying half keeps the tables valid |
| TrackingAgent.ProcessBaseCounts | stock_tracking_agent.py:1411-1508 | at most one buy per report, the tables stay valid, and the sell count is the number of sales the update reported |
| TrackingAgent.SendPartsAllDelivered | stock_tracking_agent.py:1566-1573 | when every part is delivered all of them are sent |
| TrackingAgent.SendQueueAllDelivered | stock_tracking_agent.py:1537-1580 | when every send is delivered every text of every queued message goes out in order |
| TrackingAgent.TelegramAllDelivered | stock_tracking_agent.py:1510-1589 | with every send delivered the answer is True, every text goes out and the queue is emptied |
| TrackingAgent.TelegramEmptiesQueue | stock_tracking_agent.py:1574-1584 | the tables are untouched; only a crash keeps the queue (and answers False), otherwise it is emptied |
| TrackingAgent.Agent.constructor | stock_tracking_agent.py:67-86 | the agent starts over the given tables with ten slots and an empty queue |
| TrackingAgent.Agent.CheckSectorDiversity | stock_tracking_agent.py:522-568 | the answer is the sector rule over the stored scenarios |
| TrackingAgent.Agent.AnalyzeReport | stock_tracking_agent.py:751-814 | the analysis is `Analyze` of the current tables |
| TrackingAgent.Agent.BuyStock | stock_tracking_agent.py:860-1025 | the new state and answer are `Buy` of the old state; validity is preserved |
| TrackingAgent.Agent.SellStock | stock_tracking_agent.py:1109-1185 | the new state and answer are `Sell` of the old state |
| TrackingAgent.Agent.UpdateOne | stock_tracking_agent.py:1211-1281 | one row's step, as `UpdateStep` |
| TrackingAgent.Agent.UpdateHoldings | stock_tracking_agent.py:1187-1288 | the loop over the rows read at the start ends in `UpdateAll` of the old state; validity is preserved |
| TrackingAgent.Agent.ProcessReport | stock_tracking_agent.py:1440-1500 | one report, as `ReportStep` |
| TrackingAgent.Agent.BuyFromReports | stock_tracking_agent.py:1440-1500 | the buying loop ends in `BuyPhase` of the old state |
| TrackingAgent.Agent.ProcessReports | stock_tracking_agent.py:1411-1508 | counts and state are `ProcessBase` of the old state |
| TrackingAgent.Agent.SendTelegram | stock_tracking_agent.py:1510-1589 | answer, texts sent and state are `Telegram` of the old state |
| TrackingAgent.Scenarios | stock_tracking_agent.py:538-539 | the `scenario` column of every row, in table order |
| TrackingAgent.StoredPrice | stock_tracking_agent.py:386-393 | 0 for a ticker that is not held |
| TrackingAgent.Without | stock_tracking_agent.py:1160-1163 | no row of the ticker is left, and the table does not grow |
| TrackingAgent.WithoutAbsent | stock_tracking_agent.py:1160-1163 | deleting a ticker that is not held changes nothing |
| TrackingAgent.WithoutUnique | stock_tracking_agent.py:1160-1163 | deleting keeps the tickers unique |
| TrackingAgent.WithoutKeepsAbsent | stock_tracking_agent.py:1160-1163 | deleting adds no ticker |
| TrackingAgent.UniqueTail | stock_tracking_agent.py:1160-1163 | the rest of a table with unique tickers is unique and lacks the first row's ticker |
| TrackingAgent.SetPrice | stock_tracking_agent.py:1273-1279 | the update keeps the row count and every ticker, and leaves the other tickers' rows alone |
| TrackingAgent.MatchesAppend | stock_tracking_agent.py:1242-1270 | history rows matched to sales stay matched when both grow together |
| TrackingAgent.ExtendsTwice | stock_tracking_agent.py:1187-1288 | two appends are one append of both suffixes |
| TrackingAgent.UpdatedSoFarNext | stock_tracking_agent.py:1211-1281 | one row of the refresh loop moves it on by that row's step |
| TrackingAgent.ReportStep | stock_tracking_agent.py:1440-1500 | a report that raises or is not an entry buys nothing and leaves the tables alone |
| TrackingAgent.BuyPhase | stock_tracking_agent.py:1440-1500 | never more buys than reports |
| TrackingAgent.BuyFrom | stock_tracking_agent.py:1440-1500 | the same, from the first report on |
| TrackingAgent.BoughtSoFarStart | stock_tracking_agent.py:1440 | before the first report nothing is bought |
| TrackingAgent.BoughtSoFarNext | stock_tracking_agent.py:1440-1500 | one report ends the batch raised or moves the loop on with its buy |
| TrackingAgent.BoughtSoFarEnd | stock_tracking_agent.py:1440-1500 | after the last report the batch ends with the loop's tables and buys |
| TrackingAgent.Agent.NextReport | stock_tracking_agent.py:1440-1500 | the loop body on one report keeps the loop's meaning or ends the batch raised |
| TrackingAgent.CollectSectors | stock_tracking_agent.py:538-550 | the loop collects exactly the `sector` of every stored object scenario that has one |
| TrackingAgent.CountSameSector | stock_tracking_agent.py:552 | the loop computes the sector count, raising where a comparison would |
| TrackingAgent.SendParts | stock_tracking_agent.py:1564-1570 | the parts tried are a prefix of the parts; success exactly when every part was delivered |
| TrackingAgent.SendPartsPrefix | stock_tracking_agent.py:1564-1570 | past a delivered prefix, sending goes on with the rest |
| TrackingAgent.AllDeliveredSplit | stock_tracking_agent.py:1564-1570 | delivering two lists delivers each |
| TrackingAgent.SendTexts | stock_tracking_agent.py:1564-1570 | the loop sends exactly the parts `SendParts` tries |
| TrackingAgent.SendMessage | stock_tracking_agent.py:1538-1576 | one queued message goes whole when short, else as numbered parts, as `SendParts` says |
| TrackingAgent.SendQueueStep | stock_tracking_agent.py:1537-1579 | the queue from a message on: its parts, then the rest unless it crashed |
| TrackingAgent.SendResumedStep | stock_tracking_agent.py:1537-1579 | resuming at a message that did not crash is resuming at the next with its parts sent |
| TrackingAgent.SentSoFarStart | stock_tracking_agent.py:1536-1537 | before the first message nothing is sent |
| TrackingAgent.SentSoFarNext | stock_tracking_agent.py:1537-1579 | a message that did not crash moves the loop on |
| TrackingAgent.SentSoFarCrash | stock_tracking_agent.py:1584-1587 | a crash ends the queue with what was sent so far |
| TrackingAgent.SentSoFarEnd | stock_tracking_agent.py:1537-1582 | after the last message the queue ends, not crashed |
| TrackingAgent.QueueSendsResult | stock_tracking_agent.py:1537-1582 | the loop's result is the send of the queue |
| TrackingAgent.SendAll | stock_tracking_agent.py:1537-1582 | the loop sends every queued message in order, and a crash stops it |
| TrackingAgent.Telegram | stock_tracking_agent.py:1510-1589 | without a bot nothing is sent, false is returned and the queue is kept |
| TrackingMessages.ValueHas | stock_tracking_agent.py:992-996 | `word in v` is defined exactly for a string, a list or an object, and on a string is the substring test |
| TrackingMessages.TriggerEmoji | stock_tracking_agent.py:990-998 | an emoji is chosen exactly when the trigger is a container `in` works on |
| TrackingMessages.TriggerEmojiOfText | stock_tracking_agent.py:992-999 | profit words give ✅, else loss words ⛔, else time words ⏰, else • |
| TrackingMessages.Elements | stock_tracking_agent.py:990 | a list is visited item by item, a string character by character, a dict by its keys (each key exactly once); anything else is not iterable |
| TrackingMessages.TextsHaveEmoji | stock_tracking_agent.py:990-999 | every element of a string or a dict is text, so each gets an emoji |
| TrackingMessages.TriggerLines | stock_tracking_agent.py:990-1001 | the lines exist exactly when every trigger has an emoji |
| TrackingMessages.HoldLines | stock_tracking_agent.py:1009-1010 | no conditions give no lines, and only then |
| TrackingMessages.KeyLevelsBlock | stock_tracking_agent.py:951-985 | an absent block is empty; formatting raises exactly for a truthy value without `get` |
| TrackingMessages.TriggersBlock | stock_tracking_agent.py:987-1002 | no triggers give an empty block; otherwise the block opens with the sell-signal heading, and it fails exactly when the value is not iterable or a list item cannot be searched with `in` |
| TrackingMessages.HoldBlock | stock_tracking_agent.py:1005-1011 | no conditions give an empty block; otherwise the block opens with the hold-condition heading followed by at least one line, and it fails exactly when the value is not a list, a string or a dict |
| TrackingMessages.ScenarioSection | stock_tracking_agent.py:944-1015 | only a non-empty object gives a section, which then opens with the rule and "📋 매매 시나리오" |
| TrackingMessages.BuyMessage | stock_tracking_agent.py:922-1017 | the notice exists exactly when target, stop and section can be formatted, and starts with the header naming the stock, price, target and stop |
| TrackingMessages.BuyNotice | stock_tracking_agent.py:922-1017 | the notice exists exactly when each formatted part does, and starts with the header |
| TrackingMessages.ProfitArrow | stock_tracking_agent.py:1169 | 🔺 exactly for a gain, 🔻 exactly for a loss |
| TrackingMessages.SellMessage | stock_tracking_agent.py:1168-1177 | the notice starts with "📉 매도: {name}({ticker})" |
| TrackingMessages.ChunksConcat | stock_tracking_agent.py:1551-1563 | the collected parts put back together are the pending text and the lines in order |
| TrackingMessages.ChunksFit | stock_tracking_agent.py:1554-1563 | every part is non-empty and within the limit, or one single line |
| TrackingMessages.PartsOfMessage | stock_tracking_agent.py:1543-1565 | the parts re-join to the message plus one line break, and each stripped part is within 4096 characters or a single line |
| TrackingMessages.StrippedChunkFits | stock_tracking_agent.py:1558-1563 | `rstrip` keeps a part within the limit or one line |
| TrackingMessages.NumberedHeaders | stock_tracking_agent.py:1566-1570 | part k is sent as "[i+k/n]\n" and the part |
| TrackingMessages.SplitMessage | stock_tracking_agent.py:1551-1563 | the splitting loop yields `Parts(message)` |
| TrackingMessages.RStripAll | stock_tracking_agent.py:1558-1563 | each collected part is right-stripped |
| TrackingMessages.BuyHeader | stock_tracking_agent.py:922-941 | the buy notice opens with the title naming the stock |
| TrackingMessages.PrefixOfConcat | stock_tracking_agent.py:922-1017 | a text starts with its first piece |
| TrackingMessages.StartsWithStartsWith | stock_tracking_agent.py:922-1017 | a text opening with a text that opens with `q` opens with `q` |
| TrackingMessages.JoinLinesOfJoin | stock_tracking_agent.py:1553-1555 | each line followed by a newline is `'\n'.join` of the lines plus one newline |
| TrackingMessages.RStripEach | stock_tracking_agent.py:1558-1563 | one stripped part per collected part |
| TrackingMessages.RStripEachAt | stock_tracking_agent.py:1558-1563 | part `k` is the `k`-th collected part stripped on the right |
| TrackingMessages.RStripEachSnoc | stock_tracking_agent.py:1558-1563 | appending a collected part appends its stripped form |
| TrackingMessages.ChunksClose | stock_tracking_agent.py:1556-1559 | a line that does not fit closes the pending part, when there is one, and starts the next with itself |
| TrackingMessages.Numbered | stock_tracking_agent.py:1566-1570 | one numbered text per part |
| EnhancedRules.MarketCondition | stock_tracking_enhanced_agent.py:274-280 | bull exactly when both index slopes rise, bear exactly when both fall, else neutral |
| EnhancedRules.ClampMonotone | stock_tracking_enhanced_agent.py:376 | `min(max(x, lo), hi)` keeps order |
| EnhancedRules.StopPct | stock_tracking_enhanced_agent.py:370-382 | the stop distance lies in [3, 15] in a neutral market and in [2.4, 18] in any market |
| EnhancedRules.TargetPct | stock_tracking_enhanced_agent.py:403-415 | the target distance lies in [5, 30] in a neutral market and in [3.5, 39] in any market |
| EnhancedRules.DynamicStop | stock_tracking_enhanced_agent.py:362-393 | for a positive buy price the stop lies strictly between 0 and the buy price |
| EnhancedRules.DynamicTarget | stock_tracking_enhanced_agent.py:395-426 | for a positive buy price the target lies above it |
| EnhancedRules.WiderForMoreVolatile | stock_tracking_enhanced_agent.py:362-426 | a more volatile stock gets a stop no nearer and a target no nearer |
| EnhancedRules.PctMonotone | stock_tracking_enhanced_agent.py:376-415 | both distances grow with the volatility |
| EnhancedRules.ConditionScalesDistances | stock_tracking_enhanced_agent.py:379-415 | a bull market widens both distances and a bear market narrows both |
| EnhancedRules.DynamicPricesExample | stock_tracking_enhanced_agent.py:362-426 | bought at 10,000 with volatility 30 in a bull market: stop 8,800, target 12,600 |
| EnhancedRules.TrendBucket | stock_tracking_enhanced_agent.py:696-705 | 2 iff the slope exceeds 0.15, -2 iff below -0.15, positive iff above 0.05, negative iff below -0.05 |
| EnhancedRules.TrendBucketMonotone | stock_tracking_enhanced_agent.py:696-705 | a steeper slope never gets a lower bucket |
| EnhancedRules.NormalizedSlope | stock_tracking_enhanced_agent.py:692-693 | positive iff the slope is positive and the closes move, negative likewise |
| EnhancedRules.AnalyzeTrend | stock_tracking_enhanced_agent.py:670-709 | neutral without data or on error; a rising trend needs a rising slope and a falling one a falling slope |
| EnhancedRules.FlatSeriesIsNeutral | stock_tracking_enhanced_agent.py:692-705 | a series that never moves is neutral whatever the slope |
| EnhancedRules.FallbackSellDecision | stock_tracking_enhanced_agent.py:878-971 | a zero buy price, an unreadable buy date or an uncomparable stop gives "분석 오류" and no sale |
| EnhancedRules.FallbackFirstMatch | stock_tracking_enhanced_agent.py:878-971 | with usable inputs the decision is the outcome of the first rule of the ladder that fires, else "계속 보유" with the trend |
| EnhancedRules.FallbackSellDecisionLadder | stock_tracking_enhanced_agent.py:878-971 | the stop check comes first, then the rest of the ladder |
| EnhancedRules.FallbackLongLossDead | stock_tracking_enhanced_agent.py:878-971 | the long-horizon loss rule fires only when the 30-day loss rule before it does, so it never decides |
| EnhancedRules.FallbackAgreesWithBaseWhenFlat | stock_tracking_enhanced_agent.py:878-971 | with no trend, outside a bear market and with a non-negative stop, the fallback sells exactly when the base ladder does |
| EnhancedRules.FallbackAfterStopSells | stock_tracking_enhanced_agent.py:878-971 | with no trend and no bear market the rest of the ladder sells exactly when one of the base conditions holds |
| EnhancedRules.FallbackAfterStopSellsIfAnyFires | stock_tracking_enhanced_agent.py:878-971 | below a strong rise the rest of the ladder sells exactly when one of its rules fires |
| EnhancedRules.ParseFloatOfNat | stock_tracking_enhanced_agent.py:1062 | `float()` reads back the digits of a natural number |
| EnhancedRules.NoDigitNoFloat | stock_tracking_enhanced_agent.py:1062 | text with no digit does not read as a float |
| EnhancedRules.SafeNumber | stock_tracking_enhanced_agent.py:1043-1069 | a number converts to itself; anything that is neither a number nor a string to 0 |
| EnhancedRules.SafeNumberOfText | stock_tracking_enhanced_agent.py:1051-1062 | a string whose cleaned text reads as x converts to x |
| EnhancedRules.SafeNumberOfWon | stock_tracking_enhanced_agent.py:1051-1062 | a price such as "85,000원" converts to its value |
| EnhancedRules.SafeNumberOfWordsIsZero | stock_tracking_enhanced_agent.py:1051-1069 | text with no digit converts to 0 |
| EnhancedRules.Clamp | stock_tracking_enhanced_agent.py:376-409 | `min(max(x, lo), hi)` lies in [lo, hi] and keeps a value already inside |
| EnhancedRules.Below | stock_tracking_enhanced_agent.py:385 | a positive price lowered by a distance under 100% stays positive and below it |
| EnhancedRules.Above | stock_tracking_enhanced_agent.py:418 | a positive price raised by a positive distance ends above it |
| EnhancedRules.ScaledMonotone | stock_tracking_enhanced_agent.py:385-418 | a wider distance gives a lower stop and a higher target |
| EnhancedRules.MulMonotone | stock_tracking_enhanced_agent.py:376-409 | scaling by a non-negative factor keeps order |
| EnhancedRules.SeqMax | stock_tracking_enhanced_agent.py:692 | `np.max`: an element no smaller than any other |
| EnhancedRules.SeqMin | stock_tracking_enhanced_agent.py:692 | `np.min`: an element no larger than any other |
| EnhancedRules.Scaled | stock_tracking_enhanced_agent.py:693 | `slope * n / range` for positive `n` and range has the slope's sign |
| EnhancedRules.ScaledSign | stock_tracking_enhanced_agent.py:693 | the same sign, stated on the expression itself |
| EnhancedRules.FirstFallbackFiring | stock_tracking_enhanced_agent.py:912-959 | the rule found fires and none before it does; none found exactly when none fires |
| EnhancedRules.FirstFallbackFiringFrom | stock_tracking_enhanced_agent.py:912-959 | the same, from position `i` on |
| EnhancedRules.FallbackHit | stock_tracking_enhanced_agent.py:912-959 | a rule that fires ends the search |
| EnhancedRules.FallbackSkip | stock_tracking_enhanced_agent.py:912-959 | a rule that does not fire passes to the next |
| EnhancedRules.FallbackLadderRules | stock_tracking_enhanced_agent.py:912-959 | the ten rules in the order of the code: stop, target, bear-market profit, the two short-term rules, +10%, 30 days, 60 days, long-term, severe loss |
| EnhancedRules.FallbackStopFirst | stock_tracking_enhanced_agent.py:912-916 | a hit stop is the first rule to fire |
| EnhancedRules.FallbackAfterStopFirstMatch | stock_tracking_enhanced_agent.py:919-967 | after the stop check, the first remaining rule to fire decides |
| EnhancedRules.FallbackLadderHead | stock_tracking_enhanced_agent.py:919-937 | the same when one of the four rules after the stop fires |
| EnhancedRules.FallbackLadderTail | stock_tracking_enhanced_agent.py:940-967 | the same when none of them fires |
| EnhancedRules.FallbackTailIndex | stock_tracking_enhanced_agent.py:940-959 | past the first five rules the first to fire is +10%, 30 days, 60 days or the severe loss; the long-term rule never is first |
| EnhancedRules.FallbackTailForm | stock_tracking_enhanced_agent.py:940-967 | past the first five rules the outcome is the first later rule that fires, else "계속 보유" |
| EnhancedRules.BaseSellsAfterStop | stock_tracking_agent.py:1067-1100 | past an unhit stop, the base agent sells exactly when one of its later rules fires |
| EnhancedRules.Mantissa | stock_tracking_enhanced_agent.py:1062 | digits with at most one point read as a non-negative value; plain digits read as their value |
| EnhancedRules.FirstExponentMark | stock_tracking_enhanced_agent.py:1062 | the first 'e' or 'E' from `from` on; none exactly when there is none |
| EnhancedRules.Scale | stock_tracking_enhanced_agent.py:1062 | a non-negative mantissa scaled by a power of ten stays non-negative |
| EnhancedRules.NonnegScaled | stock_tracking_enhanced_agent.py:1062 | multiplying or dividing by at least one keeps a value non-negative |
| EnhancedRules.ParseUnsigned | stock_tracking_enhanced_agent.py:1062 | an unsigned literal never reads as a negative value |
| EnhancedRules.NoDigitMantissa | stock_tracking_enhanced_agent.py:1062 | text without a digit has no mantissa |
| EnhancedRules.NoDigitUnsigned | stock_tracking_enhanced_agent.py:1062 | text without a digit is no unsigned literal |
| EnhancedRules.NoDigitStrip | stock_tracking_enhanced_agent.py:1062 | stripping adds no digit |
| EnhancedRules.RemoveCharKeepsNoDigit | stock_tracking_enhanced_agent.py:1053-1055 | deleting a character adds no digit |
| EnhancedRules.WonCleaned | stock_tracking_enhanced_agent.py:1053-1055 | deleting ',', ' ' and '원' from a grouped amount written with 원 leaves its digits |
| EnhancedRules.WonRemoved | stock_tracking_enhanced_agent.py:1055 | deleting '원' after digits leaves the digits |
| EnhancedAgent.MarketStep | stock_tracking_enhanced_agent.py:253-314 | a failed fetch keeps the condition and returns (0, 0); otherwise the condition of the two slopes, returned with the mean volatility unless the logging raised |
| EnhancedAgent.VolatilityIdempotent | stock_tracking_enhanced_agent.py:329-360 | asking twice gives the same volatility and leaves the cache alone, or both times the uncached default |
| EnhancedAgent.VolatilityKeepsEntries | stock_tracking_enhanced_agent.py:329-360 | the cache only grows, with the ticker asked for and its computed value; a cached value is returned as it is; without an entry the default 15 |
| EnhancedAgent.AtMostZero | stock_tracking_enhanced_agent.py:568-573 | `v <= 0` is defined exactly for numbers, and is then the comparison |
| EnhancedAgent.FillPrice | stock_tracking_enhanced_agent.py:568-576 | an uncomparable value raises and changes nothing; a positive value is kept; a value at most 0 is replaced by the dynamic price for the ticker's volatility |
| EnhancedAgent.EnhancedBuy | stock_tracking_enhanced_agent.py:562-584 | the market condition and the watchlist are untouched |
| EnhancedAgent.PositivePricesPassThrough | stock_tracking_enhanced_agent.py:568-579 | a positive target and stop pass to the base buy unchanged |
| EnhancedAgent.FilledPricesAreOrdered | stock_tracking_enhanced_agent.py:568-579 | filled in, the stop lies below and the target above a positive buy price |
| EnhancedAgent.FillUsesOneVolatility | stock_tracking_enhanced_agent.py:568-576 | the stop is filled with the same volatility as the target |
| EnhancedAgent.EntryGateEnters | stock_tracking_enhanced_agent.py:487-532 | a candidate is bought exactly when decided "진입", its score is not below the minimum and its sector may be bought |
| EnhancedAgent.EntryGateReasons | stock_tracking_enhanced_agent.py:487-498 | the reason held back is the sector before the score before the decision, and only a low score turns "진입" into "관망" |
| EnhancedAgent.EntryGateRaises | stock_tracking_enhanced_agent.py:487 | the gate raises exactly when the score cannot be compared and the comparison is reached |
| EnhancedAgent.SkipMessage | stock_tracking_enhanced_agent.py:504-512 | the notice starts with "⚠️ 매수 보류: {name}({ticker})" |
| EnhancedAgent.HeldBackLeavesOneNotice | stock_tracking_enhanced_agent.py:487-530 | a candidate held back buys nothing, queues exactly its notice, and adds its watchlist row exactly when the row can be inserted |
| EnhancedAgent.EReportStepExtendsQueue | stock_tracking_enhanced_agent.py:459-553 | a report step only appends to the queue |
| EnhancedAgent.EBuyPhaseValid | stock_tracking_enhanced_agent.py:459-553 | the buying half keeps the tables valid |
| EnhancedAgent.EBuyPhaseExtendsQueue | stock_tracking_enhanced_agent.py:459-553 | the buying half only appends to the queue |
| EnhancedAgent.EProcessCounts | stock_tracking_enhanced_agent.py:428-560 | at most one buy per report, valid tables, the market condition kept, and the sells are the update's sales |
| EnhancedAgent.FallbackDecide | stock_tracking_enhanced_agent.py:878-971 | every holding is decided by the trend-aware ladder with its trend and the market condition |
| EnhancedAgent.Proposed | stock_tracking_enhanced_agent.py:990-1010 | a proposal is used exactly when present, not null, and positive after lenient conversion |
| EnhancedAgent.AdjustmentMessage | stock_tracking_enhanced_agent.py:1021-1031 | the notice starts with the urgency emoji, "포트폴리오 조정: {name}({ticker})" and the update lines |
| EnhancedAgent.AdjustGate | stock_tracking_enhanced_agent.py:977-984 | an adjustment goes ahead exactly when it is needed and its lower-cased urgency is not "low" |
| EnhancedAgent.Adjust | stock_tracking_enhanced_agent.py:973-1041 | an adjustment never touches the trading history |
| EnhancedAgent.AdjustNeededAndUrgent | stock_tracking_enhanced_agent.py:977-984 | an adjustment not needed or of low urgency changes nothing |
| EnhancedAgent.AdjustTouchesOnlyTargetAndStop | stock_tracking_enhanced_agent.py:990-1017 | only the ticker's rows change, and only their target and stop, to the positive proposals |
| EnhancedAgent.AdjustHoldingsCases | stock_tracking_enhanced_agent.py:990-1017 | the rows are unchanged or carry exactly the proposed prices |
| EnhancedAgent.AdjustQueuesNotice | stock_tracking_enhanced_agent.py:1021-1033 | one notice is appended exactly when a price was written and the summary is empty or an object |
| EnhancedAgent.AdjustWritesProposedTarget | stock_tracking_enhanced_agent.py:990-1002 | a positive proposed target is written to every row of the ticker |
| EnhancedAgent.AdjustReadsWonText | stock_tracking_enhanced_agent.py:990-1002 | a proposal written "85,000원" sets the target to 85000 |
| EnhancedAgent.EnhancedAgent.constructor | stock_tracking_enhanced_agent.py:29-35 | a new agent has a neutral market, an empty cache and the base agent's tables |
| EnhancedAgent.EnhancedAgent.AnalyzeMarketCondition | stock_tracking_enhanced_agent.py:253-314 | the new condition and the answer are `MarketStep` of the old condition |
| EnhancedAgent.EnhancedAgent.GetStockVolatility | stock_tracking_enhanced_agent.py:329-360 | answer and cache are `Volatility` of the old cache |
| EnhancedAgent.EnhancedAgent.DynamicStopLoss | stock_tracking_enhanced_agent.py:362-393 | the stop for the looked-up volatility and market condition |
| EnhancedAgent.EnhancedAgent.DynamicTargetPrice | stock_tracking_enhanced_agent.py:395-426 | the target for the looked-up volatility and market condition |
| EnhancedAgent.EnhancedAgent.BuyStock | stock_tracking_enhanced_agent.py:562-584 | answer and state are `EnhancedBuy` of the old state |
| EnhancedAgent.EnhancedAgent.HoldBack | stock_tracking_enhanced_agent.py:500-530 | the state is `HoldBackStep` of the old state |
| EnhancedAgent.EnhancedAgent.ProcessReport | stock_tracking_enhanced_agent.py:459-553 | one report, as `EReportStep` |
| EnhancedAgent.EnhancedAgent.BuyFromReports | stock_tracking_enhanced_agent.py:459-553 | the loop ends in `EBuyPhase` of the old state |
| EnhancedAgent.EnhancedAgent.ProcessReports | stock_tracking_enhanced_agent.py:428-560 | counts and state are `EProcess` of the old state |
| EnhancedAgent.EnhancedAgent.WriteProposals | stock_tracking_enhanced_agent.py:990-1017 | the rows become `AdjustedHoldings`, history and queue are untouched, the lines say what was written |
| EnhancedAgent.EnhancedAgent.ProcessPortfolioAdjustment | stock_tracking_enhanced_agent.py:973-1041 | the state is `Adjust` of the old state |
| EnhancedAgent.BuyExtendsQueue | stock_tracking_enhanced_agent.py:562-584 | a buy only appends to the message queue |
| EnhancedAgent.QueueExtendsTrans | stock_tracking_enhanced_agent.py:459-553 | appending twice is appending |
| EnhancedAgent.HoldBackStep | stock_tracking_enhanced_agent.py:500-530 | holding back queues exactly the skip notice and changes no holding, no history, no condition and no cache |
| EnhancedAgent.GateStep | stock_tracking_enhanced_agent.py:487-553 | raises exactly when the gate raises, and then changes nothing; the market condition is kept |
| EnhancedAgent.GateStepValid | stock_tracking_enhanced_agent.py:487-553 | the gate's outcome keeps the tables valid |
| EnhancedAgent.GateStepExtendsQueue | stock_tracking_enhanced_agent.py:487-553 | the gate's outcome only appends to the queue |
| EnhancedAgent.EReportStep | stock_tracking_enhanced_agent.py:459-553 | a report that raises buys nothing and changes nothing; the market condition is kept |
| EnhancedAgent.EReportStepValid | stock_tracking_enhanced_agent.py:459-553 | a report step keeps the tables valid |
| EnhancedAgent.EBuyPhase | stock_tracking_enhanced_agent.py:459-553 | never more buys than reports, and the market condition is kept |
| EnhancedAgent.EBuyFrom | stock_tracking_enhanced_agent.py:459-553 | the same, from the first report on |
| EnhancedAgent.EBoughtSoFarStart | stock_tracking_enhanced_agent.py:459 | before the first report nothing is bought |
| EnhancedAgent.EBoughtSoFarNext | stock_tracking_enhanced_agent.py:459-553 | one report ends the batch raised or moves the loop on with its buy |
| EnhancedAgent.EBoughtSoFarEnd | stock_tracking_enhanced_agent.py:459-553 | after the last report the batch ends with the loop's state and buys |
| EnhancedAgent.EnhancedAgent.NextReport | stock_tracking_enhanced_agent.py:459-553 | the loop body on one report keeps the loop's meaning or ends the batch raised |
| EnhancedAgent.SetTarget | stock_tracking_enhanced_agent.py:996-999 | only the ticker's rows get the new target |
| EnhancedAgent.SetStop | stock_tracking_enhanced_agent.py:1011-1014 | only the ticker's rows get the new stop |
| EnhancedAgent.AdjustedHoldings | stock_tracking_enhanced_agent.py:990-1017 | the ticker's rows get each proposed price that is present; other rows are unchanged |
| EnhancedAgent.AdjustWith | stock_tracking_enhanced_agent.py:986-1041 | an adjustment past the gate never touches the trading history |
| EnhancedAgent.EnhancedAgent.ApplyAdjustment | stock_tracking_enhanced_agent.py:986-1041 | the new state is the adjustment of the old one |
| DomesticTrading.Init | trading/domestic_stock_trading.py:45-77 | the demo server exactly for the demo mode; the amount is the caller's unless 0 or missing |
| DomesticTrading.AmountFor | trading/domestic_stock_trading.py:138 | the caller's amount when given and not 0, else the client's |
| DomesticTrading.AmountForResolved | trading/domestic_stock_trading.py:1004 | passing a resolved amount on resolves to the same amount |
| DomesticTrading.ReservedOutsideWindows | trading/domestic_stock_trading.py:406-421 | an order is a reservation exactly outside 09:00-15:30 and 15:40-16:00, both ends included |
| DomesticTrading.RouteEdges | trading/domestic_stock_trading.py:410-421 | the window edges: 15:30:00 regular, 15:30:01 to 15:39:59 reserved, 15:40:00 and 16:00:00 closing price, 16:00:01 reserved |
| DomesticTrading.FloorDivZero | trading/domestic_stock_trading.py:148 | for a positive price the count is 0 exactly when the price exceeds a non-negative amount |
| DomesticTrading.BuyQuantity | trading/domestic_stock_trading.py:127-156 | 0 when the quote failed; a zero price raises; otherwise the largest count whose cost fits the amount |
| DomesticTrading.BuyMarketPrice | trading/domestic_stock_trading.py:158-255 | refused when auto-trading is off or the count is 0; raises only on a zero price; a submitted market order carries the computed count |
| DomesticTrading.BuyLimitPrice | trading/domestic_stock_trading.py:275-379 | refused when off; raises only on a zero limit; every record carries the limit; the order is for floor(amount / limit) at the limit |
| DomesticTrading.BuyClosingPrice | trading/domestic_stock_trading.py:425-515 | as the market buy, with the closing-price order type "02" |
| DomesticTrading.BuyReservedOrder | trading/domestic_stock_trading.py:517-626 | a market-order reservation for the count; a success names "시장가" and the period text |
| DomesticTrading.SmartBuy | trading/domestic_stock_trading.py:381-423 | refused when off; raises only on a zero price; the submitted order belongs to the window of the clock |
| DomesticTrading.HeldRowsConcat | trading/domestic_stock_trading.py:1266-1285 | filtering keeps the order of the rows |
| DomesticTrading.Portfolio | trading/domestic_stock_trading.py:1219-1300 | only positive quantities; [] when refused; every positive row of an answered inquiry is kept |
| DomesticTrading.GetPortfolio | trading/domestic_stock_trading.py:1266-1285 | the loop yields `Portfolio` |
| DomesticTrading.HeldQuantityOfPositive | trading/domestic_stock_trading.py:257-273 | on positive quantities the held quantity is never negative and is 0 exactly when the code has no entry |
| DomesticTrading.HeldQuantityOfPortfolio | trading/domestic_stock_trading.py:257-273 | the same on a portfolio as `get_portfolio` returns it |
| DomesticTrading.GetHoldingQuantity | trading/domestic_stock_trading.py:257-273 | the loop returns the quantity of the first entry for the code, 0 without one |
| DomesticTrading.SellAllMarketPrice | trading/domestic_stock_trading.py:628-723 | refused when off or nothing is held; a submitted market sell is for the whole held quantity |
| DomesticTrading.SellAllClosingPrice | trading/domestic_stock_trading.py:768-847 | as the market sell, with order type "06" |
| DomesticTrading.SellAllReservedOrder | trading/domestic_stock_trading.py:849-955 | a reservation selling the whole held quantity; a success names "시장가" and the period text |
| DomesticTrading.SmartSellAll | trading/domestic_stock_trading.py:725-766 | the submitted order sells the whole holding of the snapshot, in the window of the clock |
| DomesticTrading.DisabledRefusesEverything | trading/domestic_stock_trading.py:158-955 | with auto-trading off every entry point refuses: no order, no order number, quantity 0 |
| DomesticTrading.Round2 | trading/domestic_stock_trading.py:1349 | `round(x, 2)` lies within half a hundredth of x |
| DomesticTrading.AccountSummary | trading/domestic_stock_trading.py:1302-1364 | no account exactly when the inquiry is refused; an account's rate is the profit over the purchase sum (1 when 0), to the hundredth |
| DomesticTrading.BuyRun | trading/domestic_stock_trading.py:1002-1076 | the record names the stock and the time stamp |
| DomesticTrading.BuyRecordAmount | trading/domestic_stock_trading.py:1033-1058 | the amount reported is count times first price, and the count is non-zero exactly when the first quote allows a share |
| DomesticTrading.BuySucceedsIff | trading/domestic_stock_trading.py:1002-1076 | the record succeeds exactly when the first quote gives a positive count and the routed buy succeeds |
| DomesticTrading.SellRun | trading/domestic_stock_trading.py:1116-1217 | the record names the stock and the time stamp |
| DomesticTrading.SellGuards | trading/domestic_stock_trading.py:1141-1178 | no entry, a non-positive quantity or a failed recheck sells nothing |
| DomesticTrading.SellSoldAll | trading/domestic_stock_trading.py:1116-1217 | a successful sell ordered exactly the whole holding of the last lookup, positive on positive snapshots, and reports quantity times price |
| DomesticTrading.HeldQuantityPositiveSold | trading/domestic_stock_trading.py:725-766 | a successful full sell sold a positive holding |
| DomesticTrading.TimeoutRecord | trading/domestic_stock_trading.py:985-1000 | a timed-out request fails with nothing bought or sold |
| DomesticTrading.Trader.GetStockLock | trading/domestic_stock_trading.py:957-961 | a lock is created on first use and every later call returns the same one; a new lock differs from all earlier ones |
| DomesticTrading.Trader.ExecuteBuyStock | trading/domestic_stock_trading.py:1002-1076 | the record and order are `BuyRun`; the stock's lock exists afterwards |
| DomesticTrading.Trader.ExecuteSellStock | trading/domestic_stock_trading.py:1116-1217 | the record and order are `SellRun` |
| DomesticTrading.Trader.AsyncBuyStock | trading/domestic_stock_trading.py:963-1000 | the run's record, or the timeout record |
| DomesticTrading.Trader.AsyncSellStock | trading/domestic_stock_trading.py:1078-1114 | the run's record, or the timeout record |
| DomesticTrading.FloorDiv | trading/domestic_stock_trading.py:148 | `math.floor(a / b)`: the largest whole quotient not above the exact one (also line 308) |
| DomesticTrading.MulAtLeast | trading/domestic_stock_trading.py:148-150 | buying at least one share costs at least one price |
| DomesticTrading.Answer | trading/domestic_stock_trading.py:218-255 | the order succeeds exactly when the server accepts it, and carries the order number only then; it names the code and quantity |
| DomesticTrading.Reservation | trading/domestic_stock_trading.py:581-626 | a reservation succeeds exactly when accepted, with its number, as a market order for the requested period |
| DomesticTrading.HeldRows | trading/domestic_stock_trading.py:1270-1283 | exactly the rows with a positive quantity are kept |
| DomesticTrading.HeldRowsNext | trading/domestic_stock_trading.py:1270-1283 | one more row adds itself exactly when its quantity is positive |
| DomesticTrading.FindEntryFrom | trading/domestic_stock_trading.py:1144-1147 | the first entry for the code from `i` on; none exactly when no later entry has it |
| DomesticTrading.FindEntry | trading/domestic_stock_trading.py:268-271 | the first entry for the code; none exactly when no entry has it (also lines 1144-1147) |
| DomesticTrading.BuyAfterCount | trading/domestic_stock_trading.py:1052-1071 | once the count is known, the record succeeds exactly when `smart_buy` does, with its order number, and keeps the fields set before |
| DomesticTrading.SellAfterChecks | trading/domestic_stock_trading.py:1180-1213 | once both checks pass, the record succeeds exactly when `smart_sell_all` does; then it holds the sold quantity, the holding's position and the estimated amount |
| DomesticTrading.Trader.constructor | trading/domestic_stock_trading.py:45-77 | a trader starts with its configuration and no stock locks |
| TelegramBot.EscapeStart | telegram_bot_agent.py:49-50 | an escaped non-empty text is non-empty and starts with neither a special character nor an unescaped backslash-`!` |
| TelegramBot.UnescapeEscape | telegram_bot_agent.py:49-50 | dropping the inserted backslashes gives back the input |
| TelegramBot.EscapeInjective | telegram_bot_agent.py:49-50 | two texts with the same escape are equal |
| TelegramBot.EscapePlain | telegram_bot_agent.py:49-50 | a text with no special character and no backslash-`!` pair escapes to itself |
| TelegramBot.EscapeOne | telegram_bot_agent.py:49 | a special character gains one backslash; any other single character, a lone `!` and a lone backslash included, is unchanged |
| TelegramBot.EscapeBang | telegram_bot_agent.py:49 | the pair backslash-`!` gains one more backslash |
| TelegramBot.Formatted | telegram_bot_agent.py:46-52 | `None` stays `None`; otherwise the formatted text unescapes to the message (an empty message is kept as it is) |
| TelegramBot.SendMessage | telegram_bot_agent.py:44-74 | the first attempt is the formatted text as MarkdownV2; a second, plain attempt with the original message happens exactly when the first fails with a Telegram error; the answer is true exactly when one attempt is delivered and undefined (the error propagates) exactly when an attempt fails otherwise |
| TelegramBot.RetryIsOriginal | telegram_bot_agent.py:61-71 | the plain retry's text is exactly what the formatted attempt unescapes to |
| TelegramBot.Suffix | telegram_bot_agent.py:156 | `Path.suffix` is empty or a proper, dot-led ending of the name |
| TelegramBot.LastDot | telegram_bot_agent.py:156 | the found position holds the last dot before the bound; none means no dot there |
| TelegramBot.Stem | telegram_bot_agent.py:156 | stem followed by suffix is the name |
| TelegramBot.SentName | telegram_bot_agent.py:156 | `{stem}_sent{suffix}` is five characters longer than the name |
| TelegramBot.SentNameOfMessageFile | telegram_bot_agent.py:122-156 | a `*_telegram.txt` file is renamed `*_telegram_sent.txt`, which the glob no longer selects |
| TelegramBot.MessageFileSuffix | telegram_bot_agent.py:122-156 | a selected file's suffix is `.txt` |
| TelegramBot.LastDotAt | telegram_bot_agent.py:156 | a dot with no dot after it is the one the search finds |
| TelegramBot.PassOver | telegram_bot_agent.py:136-164 | one count and one rename per file sent |
| TelegramBot.PassOverNext | telegram_bot_agent.py:136-164 | one more file adds one count and its rename exactly when it was read and delivered |
| TelegramBot.MessageFiles | telegram_bot_agent.py:122 | the selected files are exactly the listed `*_telegram.txt` files |
| TelegramBot.PassCounts | telegram_bot_agent.py:146-167 | the returned count is the number of files read and delivered |
| TelegramBot.SentFiles | telegram_bot_agent.py:146-147 | only listed files that were delivered |
| TelegramBot.ProcessMessagesDirectory | telegram_bot_agent.py:102-167 | zero and no renames when the directory is missing; otherwise the count and renames of the pass over the selected files, each delivered file moved into the sent folder or renamed `{stem}_sent{suffix}` |
| TelegramAiBot.KeyIndex | telegram_ai_bot.py:965-966 | the found position holds the key; none means no entry has it |
| TelegramAiBot.KeyIndexFirst | telegram_ai_bot.py:965-966 | the key index is the first entry carrying the key |
| TelegramAiBot.Matches | telegram_ai_bot.py:981-988 | a pair is a match exactly when its entry has a string code and a name containing the query, ignoring case; never more matches than entries |
| TelegramAiBot.FindMatches | telegram_ai_bot.py:979-992 | the loop collects exactly the matches, in the map's order |
| TelegramAiBot.MatchLines | telegram_ai_bot.py:1005 | one line per listed match |
| TelegramAiBot.StockCode | telegram_ai_bot.py:904-1013 | an empty or missing input is refused with the prompt; the only undefined outcome (a raise) is for a six-digit input looked up in a map that is not a dict |
| TelegramAiBot.NameBranch | telegram_ai_bot.py:924 | a non-empty input that does not strip to six digits takes the name branch on the stripped query (also lines 945, 961-1013) |
| TelegramAiBot.Searched | telegram_ai_bot.py:997-1013 | the search succeeds exactly when there is one match, and then answers with that match's code and name |
| TelegramAiBot.CodeInput | telegram_ai_bot.py:945-955 | a six-digit input is answered with itself as code; success exactly when the code maps to a truthy name; otherwise the name is `종목_{code}` |
| TelegramAiBot.CodeStrips | telegram_ai_bot.py:924-945 | six digits strip to themselves |
| TelegramAiBot.ExactNameFirst | telegram_ai_bot.py:965-968 | a stripped query that names an entry exactly gets that entry's code and the query as name, whatever the substring search would find |
| TelegramAiBot.SubstringSearch | telegram_ai_bot.py:977-1013 | without an exact name, the answer is the end of the substring search, and it succeeds exactly when one match exists |
| TelegramAiBot.BlankInputMatchesAll | telegram_ai_bot.py:915 | an all-blank input passes the emptiness check, strips to "", and then every string-coded entry is a candidate (also lines 924, 987) |
| TelegramAiBot.StripAllSpace | telegram_ai_bot.py:924 | blanks strip to "" |
| TelegramAiBot.ConversationContext.AddToHistory | telegram_ai_bot.py:90-96 | exactly one entry more, at the end, with the given role, content and stamp; last update is now |
| TelegramAiBot.AddRenews | telegram_ai_bot.py:90-115 | right after an addition the context is not expired for any non-negative age limit |
| TelegramAiBot.Without | telegram_ai_bot.py:173-175 | the kept ids are exactly those not removed, never more than before |
| TelegramAiBot.WithoutMore | telegram_ai_bot.py:173-175 | deleting one more id after some is deleting all of them at once |
| TelegramAiBot.WithoutNone | telegram_ai_bot.py:173-175 | deleting nothing keeps every id in order |
| TelegramAiBot.WithoutDistinct | telegram_ai_bot.py:173-175 | deleting keeps the dict's key order free of repetitions |
| TelegramAiBot.ContextStore.Put | telegram_ai_bot.py:367 | the dict maps the id to the new context; a new id goes last in the key order, a stored one keeps its place (also line 860) |
| TelegramAiBot.ContextStore.ExpiredKeys | telegram_ai_bot.py:168-171 | an id is listed exactly when its context is more than 24 hours old |
| TelegramAiBot.ContextStore.DeleteContexts | telegram_ai_bot.py:173-175 | exactly the listed ids leave the dict; every other entry keeps its context and its place |
| TelegramAiBot.ContextStore.CleanupExpiredContexts | telegram_ai_bot.py:166-175 | exactly the contexts more than 24 hours old are dropped; the others keep their context and their order |
| TelegramAiBot.ParseIds | telegram_ai_bot.py:668 | every parsed administrator id is the integer value of one of the parts |
| TelegramAiBot.IsSubscribed | telegram_ai_bot.py:651-694 | no channel: allowed; a malformed administrator list raises and refuses; an administrator is allowed; anyone else is allowed exactly when the query answers with a valid status or ownership |
| TelegramAiBot.Summary | telegram_ai_bot.py:396-399 | a result of at most 4000 characters is kept whole; a longer one is its first 4000 characters followed by the omission marker |
| TelegramAiBot.ResultMessage | telegram_ai_bot.py:384-416 | no text message exactly when the report file is sent as a document; a non-empty result is sent as the headed summary |
| TelegramAiBot.ErrorReply | telegram_ai_bot.py:883-901 | the timeout reply exactly when the lower-cased error mentions "timed out"; the permission reply exactly when it mentions "permission" and not "timed out"; otherwise the generic apology |
| StockData.Keys | stock_data_manager.py:63-64 | every item's key is among the keys |
| StockData.DictDistinct | stock_data_manager.py:63-64 | two items of a dict carry different keys |
| StockData.KeysAppend | stock_data_manager.py:63 | the keys of two runs of items together are the union of their keys |
| StockData.KeysFront | stock_data_manager.py:63 | the keys of a run are those of all but its last item plus the last one's |
| StockData.Values | stock_data_manager.py:64 | every item's value is among the values |
| StockData.Lookup | stock_data_manager.py:63-64 | a lookup fails exactly for a missing key; a found value belongs to an item with that key |
| StockData.LookupItem | stock_data_manager.py:63-64 | in a dict, an item's key looks up that item's value |
| StockData.Put | stock_data_manager.py:63-64 | an assignment adds the key (one item more exactly when it was missing), leaves other items in place and keeps keys unique |
| StockData.LookupPut | stock_data_manager.py:63-64 | after `d[k] = v`, `k` looks up `v` and every other key what it did before |
| StockData.PutAll | stock_data_manager.py:63-64 | assigning a run of items gives the union of the keys and keeps keys unique |
| StockData.LastLookup | stock_data_manager.py:63-64 | the value of the last item with the key, or none when absent |
| StockData.LookupPutAll | stock_data_manager.py:63-64 | after assigning a run, its keys hold their last value there and other keys keep theirs |
| StockData.Listing | stock_data_manager.py:56-60 | the comprehension over a listing is a dict with exactly the listing's tickers |
| StockData.Merge | stock_data_manager.py:63 | the merge is a dict holding the codes of both markets |
| StockData.MergeOverrides | stock_data_manager.py:63 | a code listed on KOSDAQ takes its KOSDAQ name; any other code keeps its KOSPI name |
| StockData.LastIsOnly | stock_data_manager.py:63-64 | in a dict, the last item with a key is its only one |
| StockData.Swapped | stock_data_manager.py:64 | each item turned around, in place |
| StockData.Invert | stock_data_manager.py:64 | the inversion is a dict |
| StockData.InvertIsInverse | stock_data_manager.py:64 | every name of the inversion maps to a code whose name it is |
| StockData.InvertKeys | stock_data_manager.py:64 | the names of the inversion are exactly the values of the original, so it is never larger |
| StockData.InvertKeepsLast | stock_data_manager.py:64 | of several codes sharing a name, the inversion keeps the last |
| StockData.Build | update_stock_data.py:56-57 | the code dict holds the codes of both markets and the name dict is its inversion |
| StockData.UpdateStockData | update_stock_data.py:30-73 | true exactly when both listings arrive and the write succeeds, and then the catalogue written is the merge and its inversion; nothing is written otherwise |
| StockData.CatalogueConsistent | update_stock_data.py:56-57 | a name is a key of the name dict exactly when it is a value of the code dict, and maps to a code with that very name |
| StockData.NeedsUpdateIff | stock_data_manager.py:95-107 | with a readable stamp, a refresh is due exactly once `days` whole days have elapsed; a missing or unreadable stamp is always due |
| StockData.NeedsUpdateMonotone | stock_data_manager.py:95-107 | once due, a refresh stays due later |
| StockData.Len | stock_data_manager.py:36-38 | `len` is defined exactly on strings, lists and dicts |
| StockData.Field | stock_data_manager.py:34-35 | indexing succeeds exactly on a dict holding the key |
| StockData.AsObject | stock_data_manager.py:66-74 | a dict of names as a JSON object with the same keys and values |
| StockData.StockDataManager.LoadStockData | stock_data_manager.py:28-44 | each map is replaced when its key is present, and kept when the file is missing or does not parse or a key is absent; true exactly when both keys are present and the code map has a positive length |
| StockData.StockDataManager.UpdateStockData | stock_data_manager.py:46-85 | true exactly when both listings arrive and the write succeeds; when both arrive the maps become the merge and its inversion, even if the write then fails; otherwise they are unchanged |
| StockData.UpdatedMapsInvert | stock_data_manager.py:63-64 | after a refresh, looking up a name's code in the code map gives back the name |
| MarketDay.Weekday | check_market_day.py:19 | `weekday()` of an ordinal lies in 0..6 |
| MarketDay.WeekdayPeriodic | check_market_day.py:19 | the weekday repeats every seven days |
| MarketDay.MarketDayIff | check_market_day.py:14-28 | a date is a trading day exactly when its weekday is below 5 and it is not a holiday |
| MarketDay.ExitCode | check_market_day.py:30-36 | the exit status is 0 exactly on a trading day and 1 otherwise |
| MarketDay.MarketDays | check_market_day.py:14-28 | at most `n` trading days among `n` dates |
| MarketDay.NextWeekday | check_market_day.py:19 | consecutive dates run through the weekdays in turn |
| MarketDay.WeekUnrolled | check_market_day.py:14-28 | seven dates counted one by one |
| MarketDay.AtMostFivePerWeek | check_market_day.py:18-28 | every seven consecutive dates hold at most five trading days, whatever the holidays |
| MarketDay.FivePerWeekWithoutHolidays | check_market_day.py:18-28 | without holidays every seven consecutive dates hold exactly five trading days |
| JsonRepair.TrailingComma | tests/test_json_parsing.py:28 | pass 1 matches only at a comma |
| JsonRepair.CommaBeforeKey | tests/test_json_parsing.py:31-37 | passes 2 to 4 match only at a character of their class followed by whitespace |
| JsonRepair.AfterArray | tests/test_json_parsing.py:31 | pass 2 matches only at a `]` followed by whitespace |
| JsonRepair.AfterObject | tests/test_json_parsing.py:34 | pass 3 matches only at a `}` followed by whitespace |
| JsonRepair.AfterValue | tests/test_json_parsing.py:37 | pass 4 matches only at a digit or quote followed by whitespace |
| JsonRepair.DoubleComma | tests/test_json_parsing.py:40 | pass 5 matches only at a comma |
| JsonRepair.KeyPassesNeedNewline | tests/test_json_parsing.py:31-37 | for every text without '\n', passes 2 to 4 change nothing |
| JsonRepair.NoCommaNoNewlineUnchanged | tests/test_json_parsing.py:25-42 | for every text with neither ',' nor '\n', the repair returns it unchanged |
| JsonRepair.CommaFreeQuiet | tests/test_json_parsing.py:28-40 | a stretch without commas holds no match of pass 1 or pass 5 |
| JsonRepair.NoNewlineNoKeyComma | tests/test_json_parsing.py:31-37 | without '\n', the key passes match nowhere |
| JsonRepair.TrailingCommaVector | tests/test_json_parsing.py:182-185 | the repair of `{"a": 1, "b": 2,}` is `{"a": 1, "b": 2}` |
| JsonRepair.DoubleCommaVector | tests/test_json_parsing.py:188-191 | the repair of `{"a": 1,, "b": 2}` is `{"a": 1, "b": 2}` |
| JsonRepair.KeyCommaHit | tests/test_json_parsing.py:31-37 | after a character of the class, a newline and indentation up to a quote form one match that keeps that run and adds a comma after the character |
| JsonRepair.KeyCommaInserted | tests/test_json_parsing.py:31-37 | a character of the pass's class followed by a newline, indentation and a quoted key gains one comma after it; when the pass matches nowhere else, that is the only change |
| JsonRepair.KeyCommaAt | tests/test_json_parsing.py:31-37 | the same on positions: the text gains one comma after the matched character |
| JsonRepair.KeyQuietRange | tests/test_json_parsing.py:31-37 | a stretch where no character of the class is followed by whitespace holds no match |
| JsonRepair.ArrayVector | tests/test_json_parsing.py:170-173 | the repair of `{"array": [1, 2, 3]` newline `"next": "value"}` adds one comma after `]` and changes nothing else |
| JsonRepair.ObjectVector | tests/test_json_parsing.py:176-179 | the repair of `{"obj": {"a": 1}` newline `"next": "value"}` adds one comma after the inner `}` and changes nothing else |
| JsonRepair.CasesSingleLine | tests/test_json_parsing.py:182-191 | the trailing-comma and doubled-comma cases are one line each, so passes 2 to 4 leave them alone |
| JsonRepair.TrailingCommaCaseQuiet | tests/test_json_parsing.py:28 | pass 1 matches nothing before the last comma of the trailing-comma case (also lines 182-185) |
| JsonRepair.TrailingCommaCaseHit | tests/test_json_parsing.py:28 | the last comma, before the closing brace, is pass 1's one match (also lines 182-185) |
| JsonRepair.RepairedObjectPass5 | tests/test_json_parsing.py:40 | pass 5 leaves the repaired object alone: its one comma is followed by a key (also lines 182-185) |
| JsonRepair.DoubleCommaCaseQuiet | tests/test_json_parsing.py:28 | no comma of the doubled-comma case is followed by a closing bracket, so pass 1 matches nothing (also lines 188-191) |
| JsonRepair.DoubleCommaCaseHit | tests/test_json_parsing.py:40 | pass 5 replaces the two adjacent commas by one (also lines 188-191) |
| JsonRepair.ArrayCommas | tests/test_json_parsing.py:28 | pass 1 on the array case: no comma is followed by a closing bracket (also lines 170-173) |
| JsonRepair.ArrayKey | tests/test_json_parsing.py:31 | pass 2 on the array case: the `]` before the newline and the key is the one match (also lines 170-173) |
| JsonRepair.ArrayFixedKeys | tests/test_json_parsing.py:34 | passes 3 and 4 on the repaired array case match nothing (also lines 37, 170-173) |
| JsonRepair.ArrayFixedCommas | tests/test_json_parsing.py:40 | pass 5 on the repaired array case: no comma is followed by another (also lines 170-173) |
| JsonRepair.ObjectCaseQuiet | tests/test_json_parsing.py:28 | passes 1 and 2 on the object case: it has no comma and no `]` (also lines 31, 176-179) |
| JsonRepair.ObjectKey | tests/test_json_parsing.py:34 | pass 3 on the object case: the inner `}` before the newline and the key is the one match (also lines 176-179) |
| JsonRepair.ObjectFixedValues | tests/test_json_parsing.py:37 | pass 4 on the repaired object case: no digit or quote is followed by white space (also lines 176-179) |
| JsonRepair.ObjectFixedCommas | tests/test_json_parsing.py:40 | pass 5 on the repaired object case: its one comma is followed by the next key (also lines 176-179) |
| ReportGenerator.FreeIffNotContains | report_generator.py:331 | `pat in s` fails exactly when `pat` occurs at no position |
| ReportGenerator.FreeSlice | report_generator.py:331 | a piece of a text without the pattern holds none either |
| ReportGenerator.FreeAcrossNewline | report_generator.py:332 | a newline-free pattern cannot straddle the newline between two texts lacking it |
| ReportGenerator.KeptLines | report_generator.py:330-331 | exactly the lines without `[Calling tool` are kept, none of them holding it, never more than before |
| ReportGenerator.JoinFree | report_generator.py:332 | lines lacking a newline-free pattern and joined by newlines lack it as a whole |
| ReportGenerator.AllKept | report_generator.py:330-331 | when no line holds the mark, every line is kept |
| ReportGenerator.LineEnd | report_generator.py:327 | the end of the line from a position: no newline before it, and a newline at it unless it is the text's end |
| ReportGenerator.LineEndAfter | report_generator.py:327 | a newline-free stretch ends no later than its line |
| ReportGenerator.LastClosing | report_generator.py:327 | the found closing lies within the range and no closing in the range lies after it (the greedy `.*`) |
| ReportGenerator.FinalStatement | report_generator.py:327-335 | `re.search`: the leftmost opening that has a closing on its line, with the last such closing; none exactly when no statement exists |
| ReportGenerator.FinalStatementFound | report_generator.py:327-335 | an opening with a closing on its line forms a match, ending at its last closing |
| ReportGenerator.ClosingOnLine | report_generator.py:327 | a matching closing ends within the opening's line |
| ReportGenerator.NewlineFree | report_generator.py:327 | a match holds no newline |
| ReportGenerator.NoOpeningAtEnd | report_generator.py:327 | no match starts at the end of the text |
| ReportGenerator.NoStatementHere | report_generator.py:327 | an opening without a closing on its line starts no match |
| ReportGenerator.CleanModelResponse | report_generator.py:325-347 | the cleaned answer holds no `[Calling tool` and does not start with whitespace |
| ReportGenerator.KeptText | report_generator.py:330-332 | the rejoined lines hold no `[Calling tool` |
| ReportGenerator.CleanedFree | report_generator.py:335-345 | what follows the final statement, stripped, still holds no `[Calling tool` |
| ReportGenerator.StatementEnd | report_generator.py:337-338 | the cut lies within the text |
| ReportGenerator.FreeStrip | report_generator.py:339 | `strip()` keeps a text free of the mark |
| ReportGenerator.FreeLStrip | report_generator.py:345 | `lstrip()` keeps a text free of the mark |
| ReportGenerator.CleanOnlyStrips | report_generator.py:325-347 | an answer with no tool-call line and no final statement only loses its leading whitespace |
| ReportGenerator.Payload | report_generator.py:286-289 | no payload exactly when either marker is missing; a payload is never longer than the output |
| ReportGenerator.NoneUpToNewline | report_generator.py:287-288 | a newline-free marker starts nowhere in a text lacking it or at the newline after it |
| ReportGenerator.FindAfterNewline | report_generator.py:287-288 | the first occurrence of a marker printed on its own line after marker-free text is right after that newline |
| ReportGenerator.StripNewlines | report_generator.py:289 | stripping the newlines around a JSON line with no blank ends gives back the line |
| ReportGenerator.MarkersApart | report_generator.py:262-269 | neither marker holds the other, and neither holds a newline |
| ReportGenerator.PrintedStart | report_generator.py:262-287 | the first start marker of the printed output is the printed one when the logs lack it |
| ReportGenerator.PrintedEnd | report_generator.py:264-288 | the first end marker is the printed one when neither the logs nor the JSON hold it |
| ReportGenerator.PayloadBetween | report_generator.py:287-289 | the payload is the stripped text between the first start marker and the first end marker |
| ReportGenerator.PrintedMiddle | report_generator.py:262-289 | the slice between the printed markers is the JSON line with its newlines |
| ReportGenerator.PayloadOfPrinted | report_generator.py:262-289 | the JSON line printed between the markers is read back as the payload exactly |
| ReportGenerator.Outcome | report_generator.py:294-301 | a non-object raises; a truthy `success` answers with `result` (which must have a length); otherwise the error message with `error` or the default text |
| ReportGenerator.ReportResponse | report_generator.py:283-316 | a timeout gives the timeout text; missing markers the not-found text; an undecodable payload the parse-error text; otherwise the decoded outcome |
| ReportGenerator.MessagesDistinct | report_generator.py:301-316 | the failure messages differ from each other and from any analysis-error message |
| ReportGenerator.SuccessAnswered | report_generator.py:260-297 | a successful analysis printed between the markers is answered with its report |
| ReportGenerator.ErrorReported | report_generator.py:265-301 | a failed analysis printed between the markers is answered with its error message |
| ReportGenerator.AgeDays | report_generator.py:114-115 | `timedelta.days`: the whole days elapsed, rounded down |
| ReportGenerator.CompanyOf | report_generator.py:132 | the second `_` piece holds no `_` |
| ReportGenerator.CompanyRecovered | report_generator.py:132-142 | the company name is read back from a saved report's name when neither code nor company holds `_` |
| ReportGenerator.CachedReport | report_generator.py:102-136 | a hit is the newest `{code}_*.md` report and is less than a day old; a miss exactly when there is none or the newest is a day old; the HTML file is the newest `{code}_*.html`, else the one named after the report's company |
| ReportGenerator.FreshReportCached | report_generator.py:102-148 | a report saved within the last day, newer than the others, is served from the cache |
| ReportGenerator.StaleReportMissed | report_generator.py:114-116 | once the newest report is a day old, the cache misses |
| ReportGenerator.MissingHtmlNamed | report_generator.py:124-134 | the missing HTML file of a freshly saved report is named after its code, company and date (also lines 215-219) |
| ReportGenerator.GlobalApp.GetOrCreate | report_generator.py:32-53 | an initialised handle is returned unchanged; otherwise a new one is created and counts as initialised unless its initialisation raises |
| ReportGenerator.GlobalApp.Cleanup | report_generator.py:56-70 | an initialised handle is dropped, even when its cleanup raises; otherwise nothing changes |
| ReportGenerator.GlobalApp.Reset | report_generator.py:73-77 | after a reset the handle is always the new one |
| Orchestrator.StockDicts | stock_analysis_orchestrator.py:118-119 | exactly the objects with a `code` among a list's items |
| Orchestrator.Candidates | stock_analysis_orchestrator.py:116-119 | every candidate is an object with a `code` listed under a list-valued entry other than the metadata |
| Orchestrator.CandidatesCover | stock_analysis_orchestrator.py:116-119 | every such listed object is among the candidates |
| Orchestrator.StockIndex | stock_analysis_orchestrator.py:118-119 | every object with a `code` in a list is among that list's stocks |
| Orchestrator.Firsts | stock_analysis_orchestrator.py:120-126 | never more tickers than candidates |
| Orchestrator.CodeAbsent | stock_analysis_orchestrator.py:121 | a code no earlier candidate has is not in the set |
| Orchestrator.CodeIndex | stock_analysis_orchestrator.py:121 | a code in the set belongs to an earlier candidate |
| Orchestrator.CodePresent | stock_analysis_orchestrator.py:122 | each earlier candidate's code is in the set |
| Orchestrator.TickerCodePresent | stock_analysis_orchestrator.py:123-126 | each ticker's code is among the tickers' codes |
| Orchestrator.FirstsCodes | stock_analysis_orchestrator.py:112-126 | the tickers' codes are exactly the candidates' codes, and no code appears twice |
| Orchestrator.FirstAdded | stock_analysis_orchestrator.py:121-126 | a candidate first with its code adds a code no earlier ticker has |
| Orchestrator.Tickers | stock_analysis_orchestrator.py:112-136 | the extraction raises exactly when some candidate's code cannot go in a set |
| Orchestrator.TickersMeaning | stock_analysis_orchestrator.py:112-129 | the tickers' codes are exactly the listed stocks' codes, none repeated |
| Orchestrator.ListedCodeSelected | stock_analysis_orchestrator.py:116-126 | every stock listed under an entry other than the metadata contributes its code |
| Orchestrator.FirstsPrefix | stock_analysis_orchestrator.py:116-126 | later candidates do not change the tickers found so far |
| Orchestrator.NextCandidate | stock_analysis_orchestrator.py:120-126 | one more candidate adds its ticker exactly when its code is new, and its code to the set |
| Orchestrator.FirstIffNew | stock_analysis_orchestrator.py:121 | a candidate is first with its code exactly when the set lacks the code |
| Orchestrator.CandidatesPrefix | stock_analysis_orchestrator.py:116-119 | the candidates of the first entries come first |
| Orchestrator.UnhashableInPrefix | stock_analysis_orchestrator.py:121-136 | an unhashable code met early makes the whole extraction raise |
| Orchestrator.ExtractTickers | stock_analysis_orchestrator.py:112-129 | the loops compute exactly the ticker extraction |
| Orchestrator.AddStocks | stock_analysis_orchestrator.py:118-126 | the inner loop extends the tickers and the set exactly as the candidates of one entry do, failing exactly on an unhashable code |
| Orchestrator.Visit | stock_analysis_orchestrator.py:119-126 | one stock: an object with a `code` is a new candidate; an unhashable code fails; a new code adds its ticker |
| Orchestrator.UnhashableStock | stock_analysis_orchestrator.py:121-136 | a listed stock with an unhashable code makes the extraction raise |
| Orchestrator.StockAnalysisOrchestrator.RunTriggerBatch | stock_analysis_orchestrator.py:99-136 | a failed batch or a missing or unreadable file gives no tickers and keeps the stored results; a read file is stored under the mode and gives the extracted tickers, or none when extraction raises |
| Orchestrator.FirstHit | stock_analysis_orchestrator.py:392-405 | the first fragment the text contains, none before it; none when it contains none |
| Orchestrator.TriggerEmojiIsFirstHit | stock_analysis_orchestrator.py:388-405 | the mark is that of the first fragment of the chain the trigger type contains, else 🔎 |
| Orchestrator.TableEntries | stock_analysis_orchestrator.py:392-403 | the six fragments and marks, in the chain's order |
| Orchestrator.Fixed2Of | stock_analysis_orchestrator.py:356-378 | `:.2f` is defined exactly on numbers |
| Orchestrator.ArrowSign | stock_analysis_orchestrator.py:355 | 🔺 exactly for a positive rate, 🔻 for a negative one, ➖ for zero |
| Orchestrator.ExtraOnlyWhenMatched | stock_analysis_orchestrator.py:362-378 | extra lines appear only for a stock with the field under a trigger type of that kind |
| Orchestrator.StockLines | stock_analysis_orchestrator.py:345-380 | a stock's lines exist only for an object with a numeric change rate, and end with a newline |
| Orchestrator.EndsWithLast | stock_analysis_orchestrator.py:380 | a text ending in a newline character ends with "\n" |
| Orchestrator.Then | stock_analysis_orchestrator.py:340-380 | the appended text exists exactly when both parts do, and is their concatenation |
| Orchestrator.AlertText | stock_analysis_orchestrator.py:321-386 | the message exists exactly when every section can be formatted |
| Orchestrator.AlertShape | stock_analysis_orchestrator.py:329-338 | the message opens with its title line, the morning title exactly for the morning mode, and ends with the footer (also lines 382-384) |
| Orchestrator.HeaderStarts | stock_analysis_orchestrator.py:336-337 | the header opens with the title line |
| Orchestrator.TitlesDiffer | stock_analysis_orchestrator.py:330-333 | the two titles differ |
| Orchestrator.StocksTextNext | stock_analysis_orchestrator.py:345-380 | the lines, one stock further |
| Orchestrator.SectionsNext | stock_analysis_orchestrator.py:340-380 | the sections, one trigger type further |
| Orchestrator.SectionsNoneGrows | stock_analysis_orchestrator.py:340-380 | once a section raises, the message does |
| Orchestrator.StocksNoneGrows | stock_analysis_orchestrator.py:345-380 | once a stock's lines raise, the section does |
| Orchestrator.AppendSection | stock_analysis_orchestrator.py:342-380 | the loop appends exactly the section of one trigger type |
| Orchestrator.AlertMessage | stock_analysis_orchestrator.py:321-386 | the loop builds exactly the alert text |
| Orchestrator.ListedEntries | stock_analysis_orchestrator.py:275-279 | empty exactly when no list-valued entry other than the metadata exists; holds every such entry and never the metadata |
| Orchestrator.ListedEntriesNext | stock_analysis_orchestrator.py:275-279 | the listed entries, one entry further |
| Orchestrator.TradeDate | stock_analysis_orchestrator.py:271-272 | a date exists only when the metadata is an object; without metadata it is today |
| Orchestrator.SendTriggerAlert | stock_analysis_orchestrator.py:259-319 | true exactly when the file reads, the date and the message can be formatted, some stocks are listed, a channel is set and the bot delivers |
| SummaryAgent.LastSecond | telegram_summary_agent.py:53-54 | the greedy second group: the found end splits the name, and no larger end up to the bound does |
| SummaryAgent.LastFirst | telegram_summary_agent.py:53-54 | the backtracking first group: the found split, and no split with a longer first group, or the same one with a longer second group |
| SummaryAgent.Match | telegram_summary_agent.py:53-54 | `re.match`: a match exactly when some split exists, and then the one with the longest first group and, for it, the longest second group |
| SummaryAgent.ReadMetadata | telegram_summary_agent.py:49-75 | no match gives "N/A", the stem and today; a match gives a non-empty code of the class, and the name reads back as `{code}_{name}` then the rest, with the date written YYYY.MM.DD |
| SummaryAgent.ExtractMetadata | telegram_summary_agent.py:53-75 | the code is "N/A" exactly where `(\w+)_(.+)_(\d{8})_.*\.pdf` does not match |
| SummaryAgent.ExtAheadOf | telegram_summary_agent.py:53 | a newline-free run followed by the extension satisfies `.*EXT` |
| SummaryAgent.DateMarkShift | telegram_summary_agent.py:53 | a date part seen from a later start |
| SummaryAgent.DateMarkInTail | telegram_summary_agent.py:53 | a date part of `_{tail}{ext}` lies in `_{tail}` when the extension has no '_' |
| SummaryAgent.OnlyDateMark | telegram_summary_agent.py:53 | with '_' only around the date and in a date-free tail, the date part sits at one place |
| SummaryAgent.NameLayout | telegram_summary_agent.py:53 | where code, name, date and tail sit in `{code}_{name}_{date}_{tail}{ext}` |
| SummaryAgent.FrontLayout | telegram_summary_agent.py:53 | where code and name sit in `{code}_{name}` |
| SummaryAgent.BackLayout | telegram_summary_agent.py:53 | where date and tail sit in `_{date}_{tail}{ext}` |
| SummaryAgent.MatchOfName | telegram_summary_agent.py:53-54 | a name written `{code}_{name}_{date}_{tail}{ext}` with a code of the class, a name without '_' and a date-free tail matches with exactly those groups |
| SummaryAgent.ReadsBack | telegram_summary_agent.py:49-68 | such a name is read back as its code, name and dotted date |
| SummaryAgent.SearchItems | telegram_summary_agent.py:115-118 | a hit names the trigger type searched |
| SummaryAgent.SearchStocks | telegram_summary_agent.py:114-118 | a hit names the trigger type searched |
| SummaryAgent.LookupDate | telegram_summary_agent.py:90-95 | today without a date, otherwise the date without its dots |
| SummaryAgent.DetermineTriggerType | telegram_summary_agent.py:77-126 | the result is a trigger type found in the morning or afternoon file, or the default pair |
| SummaryAgent.ItemsFirstHit | telegram_summary_agent.py:115-118 | the first stock with the code, every earlier one an object without it, decides the search of a list |
| SummaryAgent.ItemsHit | telegram_summary_agent.py:115-118 | a hit comes from such a first stock |
| SummaryAgent.EntriesFirstHit | telegram_summary_agent.py:114-118 | the first trigger type whose stocks hold the code, earlier ones finding nothing, is the answer |
| SummaryAgent.EntriesHit | telegram_summary_agent.py:114-118 | a found trigger type is such a first entry |
| SummaryAgent.TriggerHasStock | telegram_summary_agent.py:98-118 | a trigger type other than the default is that of a stock carrying the code, in the free or premium section of the reported mode's file for the lookup date |
| SummaryAgent.MorningFirstStock | telegram_summary_agent.py:98-118 | the first matching stock of a readable morning file's free section decides, reported with the mode "morning" |
| SummaryAgent.MarkAt | telegram_summary_agent.py:251-258 | the first mark, in table order, occurring at the position; none when none does |
| SummaryAgent.FirstMark | telegram_summary_agent.py:258 | `re.search` of the marks: the leftmost position holding one, none before it |
| SummaryAgent.PyObjectAt | telegram_summary_agent.py:255 | a printed object is removed, and lies within the text |
| SummaryAgent.DisclaimerAfterMark | telegram_summary_agent.py:258-262 | a disclaimer starting at or after a mark starts after the whole mark |
| SummaryAgent.MarksAvoidDisclaimer | telegram_summary_agent.py:258-259 | no mark holds the disclaimer's first character |
| SummaryAgent.MarkToDisclaimer | telegram_summary_agent.py:262 | the slice from a mark to the end of a later disclaimer opens with a mark and ends with the disclaimer |
| SummaryAgent.ExtractSummary | telegram_summary_agent.py:287-291 | an extracted summary opens with a mark and ends with the disclaimer |
| SummaryAgent.DefaultMessageShape | telegram_summary_agent.py:298-307 | the default summary opens with 📊 and ends with the disclaimer |
| SummaryAgent.EmptySummary | telegram_summary_agent.py:255-262 | as written, a cleaned reply whose first disclaimer ends before its first mark yields the empty summary |
| SummaryAgent.CleanReply | telegram_summary_agent.py:245-307 | every summary opens with a mark, and one that is not the reply itself ends with the disclaimer |
| SummaryAgent.ReportTrigger | telegram_summary_agent.py:343-346 | the trigger is looked up with the metadata's date, dots removed |
| SummaryAgent.UndottedDate | telegram_summary_agent.py:61-62 | removing the dots of YYYY.MM.DD gives back the eight digits (also line 345) |
| SummaryAgent.DropDot | telegram_summary_agent.py:345 | removing dots around a dot-free piece |
| SummaryAgent.NoDotInDigits | telegram_summary_agent.py:345 | digits hold no dot |
| SummaryAgent.ReportTriggerOfName | telegram_summary_agent.py:335-346 | for a report named `{code}_{name}_{date}_{tail}.pdf`, the trigger is looked up with that code and the name's own eight-digit date |
| SummaryAgent.MessageFile | telegram_summary_agent.py:358 | the message file ends with `{code}_{name}_telegram.txt` |
| SummaryAgent.FallbackMessageFile | telegram_summary_agent.py:71-75 | for an unmatched name the code "N/A" puts the message file one directory down, in `N`, as `A_{stem}_telegram.txt` (also line 358) |
| SummaryAgent.NestedPath | telegram_summary_agent.py:358 | the join of a name starting "N/A" is a file in the subdirectory `N` |
| SummaryAgentBackup.ExtractMetadata | telegram_summary_agent_backup.py:45-71 | no match of `(\d+)_(.+)_(\d{8})_.*\.md` gives "N/A", the stem and today; otherwise the code is a non-empty run of digits |
| SummaryAgentBackup.ReportOfName | telegram_summary_agent_backup.py:45-71 | a report named `{digits}_{name}_{date}_{tail}.md` reads back as its code, name and dotted date, and its trigger is looked up with those digits and the name's date (also lines 194-215) |
| Dashboard.ParseJsonField | examples/generate_dashboard_json.py:125-133 | a falsy field gives `{}`; an undecodable string gives `{}`; a decodable non-empty string gives its value; any other truthy value raises |
| Dashboard.WithParsed | examples/generate_dashboard_json.py:158 | the row with one column replaced by its parsed value and every other column unchanged; fails exactly when parsing raises (also lines 195, 218, 260) |
| Dashboard.ParseColumn | examples/generate_dashboard_json.py:181-221 | every row with its column parsed, in order; fails exactly when some row's parse raises |
| Dashboard.HoldingDecisions | examples/generate_dashboard_json.py:240-268 | no table or a raising parse gives no decisions; otherwise every row with `full_json_data` parsed, in order |
| Dashboard.ProfitRate | examples/generate_dashboard_json.py:160-166 | zero when the buy price is not positive; otherwise `(current - buy) / buy * 100`, positive exactly when the price rose and zero exactly when it did not move; a comparison or arithmetic on a non-number raises |
| Dashboard.RateSign | examples/generate_dashboard_json.py:164 | the rate times the buy price is the gain times 100, and its sign is the gain's |
| Dashboard.HoldingDays | examples/generate_dashboard_json.py:168-176 | zero for a missing or unparsable date; otherwise the whole days elapsed since it, rounded down |
| Dashboard.Enrich | examples/generate_dashboard_json.py:154-178 | the holding row gains exactly its parsed scenario, its profit rate and its holding days; other columns are unchanged |
| Dashboard.StockHoldings | examples/generate_dashboard_json.py:139-179 | every row enriched, in order; fails exactly when some row's enrichment raises |
| Dashboard.Column | examples/generate_dashboard_json.py:287 | one `get` with default per row (also lines 322-326, 350-353) |
| Dashboard.SumOf | examples/generate_dashboard_json.py:282 | `sum` is defined exactly on numbers, and is 0 for none (also lines 325-326, 353) |
| Dashboard.Wins | examples/generate_dashboard_json.py:320 | the count of positive rates, never more than the rows; all exactly when every rate is positive, none exactly when none is |
| Dashboard.TruthyCount | examples/generate_dashboard_json.py:349-351 | the count of truthy values; all or none exactly when every or no value is truthy |
| Dashboard.Count | examples/generate_dashboard_json.py:286-297 | a key never tallied counts zero |
| Dashboard.Keys | examples/generate_dashboard_json.py:286-297 | every tallied key is a key |
| Dashboard.AbsentKey | examples/generate_dashboard_json.py:286-297 | a key on no entry is not among the keys |
| Dashboard.KeysCons | examples/generate_dashboard_json.py:286-297 | the keys of one more entry |
| Dashboard.Bump | examples/generate_dashboard_json.py:290-297 | `d[k] = d.get(k, 0) + 1`: one more for `k`, the others unchanged, keys distinct, total one higher |
| Dashboard.GroupKey | examples/generate_dashboard_json.py:288-296 | the scenario's field, or the default when absent; raises exactly when the scenario is not a dict or the value cannot be a dict key |
| Dashboard.Occurs | examples/generate_dashboard_json.py:286-297 | never more occurrences than holdings |
| Dashboard.OccursNext | examples/generate_dashboard_json.py:286-297 | one holding further, exactly its key's occurrence grows by one |
| Dashboard.TalliesNext | examples/generate_dashboard_json.py:286-297 | one bump per holding keeps the tally equal to the occurrences |
| Dashboard.Distribution | examples/generate_dashboard_json.py:285-297 | the distribution counts, for every key, exactly the holdings grouped under it, with distinct keys and total the number of holdings; fails exactly when a grouping raises |
| Dashboard.PortfolioOf | examples/generate_dashboard_json.py:299-306 | the summary of `n` holdings: the count, the total, the average times `n` is the total, the slot text `n/10` and `n * 10` percent |
| Dashboard.SummarizePortfolio | examples/generate_dashboard_json.py:270-306 | the zero summary for no holdings; otherwise defined exactly when the rates sum and both groupings succeed, with the distributions counting holdings by sector (default 기타) and by period (default 단기) |
| Dashboard.TradingOf | examples/generate_dashboard_json.py:327-334 | wins and losses add up to the trades; the win rate is the winning share times 100, between 0 and 100, at 100 exactly when all won and 0 exactly when none did |
| Dashboard.SummarizeTrading | examples/generate_dashboard_json.py:308-334 | the zero summary for no history; otherwise defined exactly when the rates compare and both columns sum, and then the trading summary of those counts and sums |
| Dashboard.WinRateBounds | examples/generate_dashboard_json.py:322 | a share times 100 lies between 0 and 100, at the ends exactly for all or none |
| Dashboard.DecisionsOf | examples/generate_dashboard_json.py:355-361 | sells and holds add up to the decisions; the average confidence times the count is the sum |
| Dashboard.SummarizeDecisions | examples/generate_dashboard_json.py:336-361 | the zero summary for none; otherwise defined exactly when the confidences sum, counting truthy sell signals and adjustments, never more adjustments than decisions |
| Dashboard.FormatStock | examples/generate_dashboard_json.py:92-103 | each field of the brokerage row under its dashboard name, sector 실전투자, weight 0 |
| Dashboard.Weighted | examples/generate_dashboard_json.py:108-109 | each holding's weight becomes its value's share of the total, in percent; nothing else changes |
| Dashboard.WeightedSum | examples/generate_dashboard_json.py:108-109 | the weights sum to the value sum's share of the total |
| Dashboard.WeightsMakeHundred | examples/generate_dashboard_json.py:106-109 | weighted by their own total, the weights sum to 100 |
| Dashboard.UnweightedSum | examples/generate_dashboard_json.py:102 | zero weights sum to zero |
| Dashboard.AssignWeights | examples/generate_dashboard_json.py:108-109 | the array in place becomes the weighted holdings |
| Dashboard.KisTradingData | examples/generate_dashboard_json.py:71-119 | nothing without the brokerage module or when the trader cannot be created; otherwise the formatted portfolio rows and the account summary, whose weights sum to 100 when the total value is positive and are all 0 otherwise |
| Dashboard.WeightedValues | examples/generate_dashboard_json.py:108-109 | weighting leaves the values unchanged |
| Dashboard.SummarizeRealTrading | examples/generate_dashboard_json.py:361-378 | the zero summary for no portfolio and an empty account; otherwise the portfolio's count and the account's figures (zeros for an empty account); `.get` on a missing account with holdings raises |
| Dashboard.UnavailableSummary | examples/generate_dashboard_json.py:73-75 | without the brokerage the real-trading summary is the zero one (also lines 361-370) |
| PortfolioReporter.NewReporter | trading/portfolio_telegram_reporter.py:62-72 | a non-empty argument wins over the environment for token and channel; construction fails exactly when either ends up empty; the mode is the argument's, else the configured default |
| PortfolioReporter.OrElse | trading/portfolio_telegram_reporter.py:62-63 | `a or b` on optional strings: a non-empty `a`, else `b` or "" |
| PortfolioReporter.Currency | trading/portfolio_telegram_reporter.py:78-80 | "0원" for zero; otherwise the amount rounded half to even and grouped by thousands, with a sign for a negative amount, then 원 |
| PortfolioReporter.Percentage | trading/portfolio_telegram_reporter.py:82-84 | "0.00%" for zero; otherwise two decimals with an explicit sign, then % |
| PortfolioReporter.CurrencyOfWhole | trading/portfolio_telegram_reporter.py:80 | without its separators, a whole positive amount reads as its decimal digits then 원 |
| PortfolioReporter.ModeEmoji | trading/portfolio_telegram_reporter.py:98 | 🧪 exactly for "demo", else 💰 (also line 227) |
| PortfolioReporter.ModeText | trading/portfolio_telegram_reporter.py:99 | 모의투자 exactly for "demo", else 실전투자 |
| PortfolioReporter.Header | trading/portfolio_telegram_reporter.py:101-103 | the report title with the mode mark on one line, then the time and mode text and a blank line |
| PortfolioReporter.Sign | trading/portfolio_telegram_reporter.py:113-147 | "+" exactly for a non-negative amount |
| PortfolioReporter.ProfitEmoji | trading/portfolio_telegram_reporter.py:112 | 📈 exactly for a non-negative profit, else 📉 (also line 250) |
| PortfolioReporter.AccountSection | trading/portfolio_telegram_reporter.py:105-123 | the failure line without an account; otherwise the total and profit lines, the available line only when the available amount is positive, then a blank line |
| PortfolioReporter.StatusEmoji | trading/portfolio_telegram_reporter.py:139-145 | 🔺 for a positive rate, 🔻 for a negative one, ➖ for zero |
| PortfolioReporter.StockBlock | trading/portfolio_telegram_reporter.py:150-153 | a stock's block opens with its numbered title line |
| PortfolioReporter.Numbered | trading/portfolio_telegram_reporter.py:129 | one block per stock |
| PortfolioReporter.NumberedIndex | trading/portfolio_telegram_reporter.py:129 | the `k`-th block is numbered `k + 1` (`enumerate(portfolio, 1)`) |
| PortfolioReporter.NumberedPrefix | trading/portfolio_telegram_reporter.py:129 | the blocks of a prefix are a prefix of the blocks |
| PortfolioReporter.BlocksNext | trading/portfolio_telegram_reporter.py:129-153 | the text, one stock further |
| PortfolioReporter.BlockNumbered | trading/portfolio_telegram_reporter.py:129-153 | the `k`-th stock's block, numbered `k + 1`, follows the earlier blocks in the text |
| PortfolioReporter.HoldingsSection | trading/portfolio_telegram_reporter.py:125-156 | the no-holdings line for none; otherwise the count line and then every stock's block |
| PortfolioReporter.PortfolioMessage | trading/portfolio_telegram_reporter.py:86-158 | the loop builds exactly the header, the account section and the holdings section |
| PortfolioReporter.TradingData | trading/portfolio_telegram_reporter.py:161-182 | nothing when the trader cannot be created; otherwise the brokerage portfolio, positions held only, and the account summary |
| PortfolioReporter.SendPortfolioReport | trading/portfolio_telegram_reporter.py:184-213 | the report message of the fetched data; true exactly when the bot delivers |
| PortfolioReporter.StatusTitle | trading/portfolio_telegram_reporter.py:230-237 | an unknown status type gets the generic title |
| PortfolioReporter.StatusAccount | trading/portfolio_telegram_reporter.py:245-255 | the failure line without an account; otherwise it opens with the total line |
| PortfolioReporter.StatusMessage | trading/portfolio_telegram_reporter.py:242-257 | opens with the title and the mode mark, ends with the status footer |
| PortfolioReporter.SendSimpleStatus | trading/portfolio_telegram_reporter.py:215-270 | the status message of the fetched account; true exactly when the bot delivers |
| PdfConverter.TitleFrom | pdf_converter.py:421-425 | the index found is the first line from `i` on that starts with "# ", and no line before it does; none is found exactly when no such line exists |
| PdfConverter.Title | pdf_converter.py:251-255 | the text after "# " of the first such line, stripped; "보고서" when there is none; a found title has no surrounding white space |
| PdfConverter.Flush | pdf_converter.py:483-508 | an empty section adds nothing; a non-empty one adds one paragraph of its lines joined by newlines |
| PdfConverter.Kind | pdf_converter.py:473 | a line is a fence exactly when it starts with three backquotes |
| PdfConverter.RunNext | pdf_converter.py:470-504 | one more line is one more step of the loop |
| PdfConverter.RunLast | pdf_converter.py:470-504 | appending a line appends one step |
| PdfConverter.RunAppend | pdf_converter.py:470-504 | the loop over two pieces is the loop over the first, continued over the second |
| PdfConverter.RunKeepsElements | pdf_converter.py:470-504 | the loop only appends elements: what was laid out stays, in order |
| PdfConverter.CodeLines | pdf_converter.py:477-479 | inside a code block every non-fence line joins the section verbatim |
| PdfConverter.FencedBlock | pdf_converter.py:472-479 | a fenced block adds its inner lines, headings and blank lines included, to the section and leaves the code state as it was |
| PdfConverter.PlainText | pdf_converter.py:482-499 | a non-blank line that is neither a fence nor a heading is plain text |
| PdfConverter.PlainLines | pdf_converter.py:497-499 | plain text lines join the current section in order |
| PdfConverter.Paragraph | pdf_converter.py:497-504 | plain lines then a blank line become one paragraph and a small spacer |
| PdfConverter.StepBlank | pdf_converter.py:500-504 | a blank line after a non-empty section ends the paragraph and adds the spacer |
| PdfConverter.BlankKind | pdf_converter.py:500-504 | a white-space line outside a fence is a blank line |
| PdfConverter.Finish | pdf_converter.py:506-508 | the last section is flushed as a paragraph |
| PdfConverter.ElementsOpenWithTitle | pdf_converter.py:461-465 | the elements open with the title as a level-1 heading and the large spacer |
| PdfConverter.LayoutLine | pdf_converter.py:470-504 | one pass of the loop body is one step of the layout |
| PdfConverter.ReportLabElements | pdf_converter.py:400-517 | the loop over the lines builds exactly the element list of the layout |
| PdfConverter.CreateWatermark | pdf_converter.py:139-184 | with the style, it goes before every "</head>"; when the logo cannot be read the HTML comes back unchanged |
| PdfConverter.ReplaceFirst | pdf_converter.py:181 | `str.replace` rewrites the first occurrence and continues after it |
| PdfConverter.NoHeadNoWatermark | pdf_converter.py:181 | HTML without "</head>" is returned unchanged |
| PdfConverter.WatermarkBeforeHead | pdf_converter.py:180-181 | the style lands right before the first "</head>", after the head text |
| PdfConverter.MarkdownToPdf | pdf_converter.py:549-591 | a named method runs only its converter; any other tries pdfkit, ReportLab, mdpdf in order, stops at the first success, and succeeds exactly when one of them does |
| App.StockCodeExamples | app.py:204-205 | a six-digit code passes with or without the final newline `$` allows; five, seven, a letter, two newlines or a leading newline fail |
| App.LastBefore | app.py:208-210 | the last occurrence of a character lies before a tail that does not hold it |
| App.HostFromParts | app.py:209 | a host, a dot and a top-level domain of two or more letters satisfy the domain half of the pattern |
| App.BodyFromParts | app.py:209 | a local part and a valid domain around one `@` satisfy the whole pattern |
| App.EmailFromParts | app.py:208-210 | `local@host.tld` from the pattern's character classes is a valid address, with or without a final newline |
| App.BodyOfParts | app.py:209 | `local@host.tld` from the pattern's character classes matches the pattern body |
| App.NewlineAllowed | app.py:210 | `$` also accepts an address followed by one newline |
| App.SplitAround | app.py:209 | a text is its pieces around an `@` and a later dot |
| App.EmailPieces | app.py:209 | every valid address is `local@host.tld` with pieces from the pattern's classes (the converse of EmailFromParts) |
| App.EmailBodyOneLine | app.py:209 | a matched address body holds no newline |
| App.ValidateInputs | app.py:187-201 | valid exactly when the name is non-empty, the code and the address valid; otherwise the first failing check, name before code before address |
| App.SavedReportMatches | app.py:110-130 | a report saved under `{code}_{name}_{date}.md`, for a name without `/`, matches the lookup pattern `{code}_*_{date}.md` |
| App.CachedReport | app.py:110-119 | a found report is a matching file with the latest modification time; none exactly when no file matches |
| App.SavedThenCached | app.py:110-130 | a report saved after every existing file is the one the next lookup returns |
| App.StatusMark | app.py:177-182 | every status has a one-character mark |
| App.StatusMarksDistinct | app.py:177-182 | the three statuses have different marks |
| App.AnalysisRequest.constructor | app.py:25-33 | a new request holds its inputs, is pending and has no result |
| App.AnalysisRequest.Process | app.py:68-107 | failed with the error text exactly when a step raises; otherwise completed, with the cached report's text when one matches and the freshly saved file's text when none does; the inputs are unchanged |
| App.ProcessAnalysis | app.py:212-239 | success exactly without a failure; the failure text, else the cached report's text when one matches, else the new report's text |
| Utils.FencedBlock | utils.py:23 | a match of pass 1 starts with the opening mark and ends within the text |
| Utils.CloseNotInside | utils.py:23 | a body without the newline-and-closing-mark cannot hold one that runs into the closing mark |
| Utils.NewlineAfter | utils.py:23 | `[^\n]*\n` stops at the first newline |
| Utils.ShortestFence | utils.py:23 | a block spans from the opening mark through the first newline-and-closing-mark after its info line, and its group is the body between them |
| Utils.FenceLandmarks | utils.py:23 | the same block match, stated on a text given as its pieces |
| Utils.BlockLandmarks | utils.py:23 | the pieces of a block put the opening mark, the info line's newline and the first close where the match needs them |
| Utils.Landmarks | utils.py:23 | those landmarks determine the match and its group |
| Utils.Opening | utils.py:23 | the opening mark and its line end where the info line ends |
| Utils.FirstClose | utils.py:23 | the lazy `(.*?)` stops at the first newline-and-closing-mark after the info line |
| Utils.BodySlice | utils.py:23 | the group is exactly the body |
| Utils.OpeningLine | utils.py:23 | the info line ends at its own newline, whatever follows |
| Utils.FenceFrom | utils.py:23 | an opening mark, the info line's newline and the first close make a match whose group is the text between |
| Utils.NoCloseBefore | utils.py:23 | no close starts inside a body that holds none |
| Utils.FirstOccurrence | utils.py:23 | a search from `b` finds the first occurrence at or after `b` |
| Utils.FenceUnwrapped | utils.py:19-28 | a report that is one fenced block comes back as its body, with the literal pairs turned into blank lines |
| Utils.UnchangedWithoutMarks | utils.py:19-28 | text without the opening mark and without literal pairs is left unchanged |
| Utils.PairAfterPlain | utils.py:26 | pass 2 turns the first literal pair into two newlines and goes on after it |
| Utils.EveryPairReplaced | utils.py:26 | pieces without backslashes joined by literal pairs come back joined by blank lines |
| Utils.TypeIndex | utils.py:6-42 | an index found holds the report type; none is found exactly when no entry has it |
| Utils.FormatAtEnd | utils.py:7-42 | a page template ending in its only `{}` becomes the page with the company code appended |
| Utils.WiseReportUrl | utils.py:40-42 | an unknown report type is a `KeyError`, exactly when no entry of the table has it |
| Utils.PageIdPlain | utils.py:7-15 | each page id has eight characters and no brace |
| Utils.PageUrl | utils.py:5-42 | for a page id of eight characters without a brace, the URL is exactly the base, the page id, ".aspx?cmp_cd=" and the company code, so the code sits at its end |
| Utils.KnownTypeUrl | utils.py:40-42 | a known report type yields the base URL then 21 characters then the company code |
| Utils.UrlInjective | utils.py:40-42 | different company codes give different URLs for the same report type |
| Files.Latest | app.py:113-116 | a file found passes the filter and is not older than any other that does; none exactly when no file passes |
| Files.LatestAfterNewer | app.py:113-130 | a matching file newer than all others is the latest |
| Files.GlobMatchOf | app.py:112-113 | a name made of the glob's ends around a middle without `/` matches it |
| Format.Amount | trading/portfolio_telegram_reporter.py:80 | `{:,.0f}`: the amount rounded half to even and grouped by thousands, with a minus sign when negative |
| Format.AmountOfWhole | trading/portfolio_telegram_reporter.py:80 | without its separators, a whole amount reads as its decimal digits |
| Format.SignedFixed2 | trading/portfolio_telegram_reporter.py:84 | `{:+.2f}`: a plus sign exactly for a non-negative value, then two decimals |
| Format.Fixed2OfHundredths | trading/portfolio_telegram_reporter.py:84 | a whole number of hundredths prints as its digits with the point before the last two |
| Orchestrator.StockAnalysisOrchestrator.constructor | stock_analysis_orchestrator.py:46-48 | a new orchestrator has selected no tickers |
| Orchestrator.StockDictsNext | stock_analysis_orchestrator.py:99-136 | a list's stock entries, one item further: an object with a "code" is added |
| Orchestrator.StocksStep | stock_analysis_orchestrator.py:99-136 | the same after the entries collected so far |
| Orchestrator.CandidatesNext | stock_analysis_orchestrator.py:99-136 | the candidates, one trigger further: a listed trigger adds its stock entries |
| Orchestrator.NextFirsts | stock_analysis_orchestrator.py:99-136 | the tickers, one candidate further: added only at its first appearance |
| Orchestrator.NextCodes | stock_analysis_orchestrator.py:99-136 | the codes seen, one candidate further, gain its code |
| ReportGenerator.GlobalApp.constructor | report_generator.py:27-29 | at import there is no shared app and it is not initialized |
| StockData.StockDataManager.constructor | stock_data_manager.py:14-27 | the maps start empty; the code map then holds the stored "code_to_name" when the file exists, parses and has it, and the name map holds "name_to_code" when the file also has that |
| StockData.IndexOf | stock_data_manager.py:63-64 | the position of a key is one that holds it |
| StockData.IndexOfValue | stock_data_manager.py:64 | the position of a value is one that holds it |
| StockData.IndexIn | stock_data_manager.py:64 | the position of a pair is one that holds it |
| TelegramAiBot.ConversationContext.constructor | telegram_ai_bot.py:76-88 | a new context has no history, and its creation and last-update times are now |
| TelegramAiBot.ContextStore.constructor | telegram_ai_bot.py:151 | the bot starts with no stored contexts |
| PdfConverter.StripBlank | pdf_converter.py:498 | a line that strips to nothing is all white space |

## Left out

- Language-model calls, prompts and report generation (`generate_*_response`, the agents' `generate_str`, the evaluator-optimizer loop): non-deterministic foreign calls. Their replies are inputs to the cleaners that are modelled.
- SQLite, file reads and writes, globbing and modification times, pykrx, the brokerage HTTP API, the `holidays` library and subprocesses: replaced by tables, listings, quotes, replies, holiday sets and outcomes given as inputs.
- Linear regression, `np.max`/`np.min` over price frames and the volatility standard deviation: slopes, ranges and volatilities are real inputs.
- Concurrency: locks, semaphores, `wait_for` timeouts, sleeps, threads and the scheduler. Stock locks are modelled as a get-or-create map, and a timeout as its result record.
- Delivery and rendering: Telegram sends, SMTP, Streamlit pages, and the PDF and HTML libraries. Each send or conversion is an input saying whether it succeeded.
- EnhancedAgent.EProcessCounts: the brokerage order placed after a buy is committed to the tables (stock_tracking_enhanced_agent.py:536-546) is not modelled. Neither is its exception, which makes the outer handler return (0, 0) after the holding was written (:557-560). The model counts that buy.
- TrackingAgent.ProcessBaseCounts: likewise the brokerage buy after a committed buy (stock_tracking_agent.py:1474-1481) is not modelled.
- TrackingAgent.UpdateAllRecordsSales: likewise the brokerage sell after a committed sale (stock_tracking_agent.py:1248-1256) is not modelled.
- Text.Lower: lower-cases ASCII letters only, while Python's `str.lower()` maps every script ("Ä" and "ä" are the same sector in Python, different here). TelegramAiBot.Candidate (the case-insensitive name lookup) and TrackingRules.SameSector inherit this.
- App.IsValidStockCode: `\d` is read as the ASCII digits, while Python's `\d` also accepts other decimal digits; the same holds for every `\d` the parsers model.
- EnhancedRules.ParseFloat: reads decimal literals with an optional sign, point and exponent; "inf", "nan", digit groups written with `_` and non-ASCII digits, which Python's `float()` accepts, are rejected.
- PyValue.ParseInt: the same restriction for `int()`: no `_` separators and no non-ASCII digits.
- PyValue.Show: a list or a dict prints as the placeholder "[…]" or "{…}", not as Python's rendering of its items. This shows where a scenario field that the messages print (a rationale, a valuation note, a trigger inside a list) holds a container.
- PyValue.FloatText: only a whole float below 10^16 prints as Python's `str()` does; any other float prints with two decimals instead of the shortest round-trip form (7.5 as "7.50"). This reaches float scores and fields printed in the buy and hold-back messages and the timeout in the brokerage timeout message.
- PyValue.Less: two lists, or two of any other container, are modelled as raising, while Python compares two lists item by item. This differs only when a scenario's "buy_score" and "min_score" are both lists: Python compares them, and the model raises.
- TrackingMessages.Elements: a dict's keys are visited in code-point order, not in the insertion (file) order Python keeps, because a `Value` dict holds no key order. Buy succeeds or fails as in the source, with the same number of lines; only the order of the lines may differ.
- TrackingMessages.TriggersBlock: for a dict of triggers, the lines follow the key order of TrackingMessages.Elements, not the file order.
- TrackingMessages.HoldBlock: for a dict of conditions, the lines follow the key order of TrackingMessages.Elements, not the file order.
- TrackingAgent.StoreReal: text is converted where `float()`'s decimal-literal reader (EnhancedRules.ParseFloat) accepts it. SQLite's reader differs in corner cases that are not modelled, such as non-ASCII white space and exponents outside the float range.
- `\w` is read as ASCII letters, digits, `_` and Hangul syllables, not every Unicode word character.
- Float formatting is exact over reals: `{:,.0f}` and `{:+.2f}` round the exact value half to even, and IEEE rounding of the computations before them is ignored.
- JsonRepair.KeyCommaInserted: no lemma runs the whole five-pass repair over the logged multi-line scenario of tests/test_json_parsing.py:44-91. Nor does one cover the composite case at :194-203. The comma-insertion passes are proved in general, and the four single-error cases are proved end to end.
- stock_data_manager.py `get_stock_code` has no body of its own (:109-120); the lookup is modelled once, from telegram_ai_bot.py.
- Dashboard: `get_market_condition`, `generate` and `save` only read tables and write the JSON file; the per-table readers and the summaries they call are modelled.
- PdfConverter: the CSS and HTML template of `markdown_to_html`, its image-path rewriting, script stripping and the rendering libraries are left out. Whether each converter succeeds is a parameter of `MarkdownToPdf`.
- telegram_bot_agent.py `send_document`: only the file upload, so a foreign call.
- PortfolioReporter: as written, trading/portfolio_telegram_reporter.py uses `Path`, `List`, `Dict`, `Any` and `logger` without importing or defining them, so importing the module raises `NameError` at line 16. The model assumes those names exist and describes the behaviour the code evidently intends.
- PortfolioReporter: the command-line `main` and the logging are left out; a failing brokerage or bot call is the `None` of its input.
- The `main` functions and command-line entry points of every script, main.py (its markdown clean-up and URL helper are the utils.py ones), analysis_manager.py and the interactive test scripts: no logic beyond the modelled functions.

## Findings

| source | as written | input that shows it | evidently intended | confidence | as-written member | corrected member |
|---|---|---|---|---|---|---|
| telegram_summary_agent.py:258-262 | when the reply holds both a mark and the disclaimer, it returns the slice from the first mark to the end of the first disclaimer | a reply not opening with a mark, whose disclaimer sentence comes before its first mark, gives the empty summary | take the slice only when the disclaimer follows the mark, and otherwise fall back to the other extractions | not executed | SummaryAgent.EmptySummary (about SummaryAgent.CleanReplyAsWritten) | SummaryAgent.CleanReply |
