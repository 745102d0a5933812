# Agricultural assistant agent server — verified model

The repository is an agent server for farmers. A LangGraph workflow reads what the user
says and routes it to one of two sub-agents: a market-price agent or a government-scheme
agent. Each sub-agent runs a language-model agent, keeps that agent's conversation history
and hands control back. Around the workflow sit:

- an MCP calculator tool server;
- a market-price search tool, which asks a search service and parses its answer;
- a structured output schema for the market-price agent;
- a Redis layer that keeps per-workflow state under `workflow:<id>` keys, with an expiry.

This project models those pieces in Dafny and proves what they promise.

| Dafny module | file | models |
|---|---|---|
| `Wrappers` | wrappers.dfy | `Option` and `Result` |
| `Json` | json.dfy | JSON values, Python truthiness, `json.dumps`/`json.loads` as a parameter pair |
| `Stats` | stats.dfy | `sum`, `min`, `max`, `sorted` and the median |
| `Calculator` | calculator.dfy | the tools of `MCP/calculator.py` |
| `Text` | text.dfy | `strip`, `split`, `startswith`, substring test |
| `MarketPrice` | market_price.dfy | location/query building and `extract_price_data` |
| `RedisStore` | redis_store.dfy | the Redis client: `SETEX`, `GET`, `EXPIRE` over a key/value map with expiries |
| `StateKeys` | state_key.dfy | `get_state_key` and the per-record key suffixes |
| `StateHistory` | state_history.dfy | the five save/load pairs of `storage/redis/state_history` |
| `ClientMix` | client_mix.dfy | how the state modules' awaited and un-awaited calls on `redis_client` behave as written |
| `AgentHistory` | agent_history.dfy | `save_messages_to_redis` |
| `States` | states.dfy | `SystemState`, `Routing`, `AgentInputOutput`, and how a node's update merges into the state |
| `Graphs` | graph.dfy | the `StateGraph` builder as a class, and the shape it builds |
| `AgentNodes` | agent_nodes.dfy | the `MarketPriceAgent` and `GovSchemeAgent` nodes and their subgraphs |
| `Workflow` | workflow.dfy | `main.py`: the router, its route table, `get_user_input` and the top graph |
| `OutputModel` | output_model.dfy | `MarketPriceAgentOutput` and its nested records |

How the model is built:

- Numbers are exact reals.
- Python's `round` is a parameter `rnd`. A lemma that needs rounding to behave in some way says so in its `requires`: rounding is monotone, or it keeps whole numbers.
- The store is a `Store` class. It has a `data` map and a `ttl` map, and `SetEx`, `Get` and `Expire` methods.
- A failing Redis call is a boolean `failure` argument. A missing client is a null `Store?`.
- The language-model call is a function `respond` from prompt to JSON answer.
- The value the interrupt resumes with is a parameter.
- Python's `str()` rendering of the history and of the input, which the prompts embed, is a `Renderer` parameter.
- The one loop of the source, in `extract_price_data`, is a method with loop invariants. It is proved equal to a specification function, and the properties are proved about that function.
- The code that changes state without a loop is made of methods whose `ensures` give the new state: the `StateGraph` builder calls, the history appends and saves, and the Redis saves and loads.

## Model

| member | source | states |
|---|---|---|
| `Calculator.Add` | MCP/calculator.py:13-30 | the result is the sum of all operands; omitted operands count as 0 |
| `Calculator.Subtract` | MCP/calculator.py:34-53 | the result is the minuend less the sum of all other operands; omitted ones count as 0 |
| `Calculator.Multiply` | MCP/calculator.py:57-74 | the result is the product of all operands; omitted operands count as 1 |
| `Calculator.Divide` | MCP/calculator.py:78-97 | fails with `ZeroDivisionError("Cannot divide by zero")` exactly when the divisor is 0; otherwise the quotient times the divisor gives back the dividend |
| `Calculator.ArithmeticExamples` | MCP/calculator.py:13-97 | the documented examples: add(1,2,3)=6, add(1,2)=3, subtract(10,3,2)=5, multiply(2,3,4)=24, divide(10,2)=5 |
| `Calculator.PercentOf` | MCP/calculator.py:135-138 | the unrounded percentage times the whole equals the part times 100 |
| `Calculator.Percentage` | MCP/calculator.py:120-138 | fails with its zero-division message exactly when `whole` is 0; otherwise the rounded percentage of `part` in `whole` |
| `Calculator.ChangePercent` | MCP/calculator.py:157-160 | applying the unrounded change percentage to the old value gives the new value |
| `Calculator.PercentageChange` | MCP/calculator.py:142-160 | fails with its zero-division message exactly when the old value is 0; otherwise the rounded change percentage |
| `Calculator.PercentageExamples` | MCP/calculator.py:120-160 | the documented examples percentage(25,200)=12.5 and percentage_change(100,120)=20, before rounding |
| `Calculator.AveragesWithinRange` | MCP/calculator.py:164-218 | each average is the rounded mean of its inputs; with monotone rounding it lies between the rounded least and greatest input |
| `Calculator.MedianThree` | MCP/calculator.py:222-238 | the result is one of the three inputs, with at most one input strictly below it and at most one strictly above it |
| `Calculator.MedianFive` | MCP/calculator.py:242-257 | the result is one of the five inputs, with at most two inputs strictly below it and at most two strictly above it |
| `Calculator.MedianBetweenMinAndMax` | MCP/calculator.py:222-257 | each median lies between the least and the greatest input; median_three(1,3,2)=2 |
| `Calculator.MiddleOf` | MCP/calculator.py:237-257 | the middle element of the sorted values is a median of them: one of them, with at most half strictly below and half strictly above |
| `Calculator.MiddleOfSorted` | MCP/calculator.py:237-257 | for values already ascending, the middle of the sorted values is the value in the middle position |
| `Calculator.MedianThreeOfAscending` | MCP/calculator.py:237-238 | for ascending inputs median_three is the middle argument |
| `Calculator.MedianFiveOfAscending` | MCP/calculator.py:256-257 | for ascending inputs median_five is the middle argument |
| `Calculator.MinTwo` | MCP/calculator.py:565-575 | the result is one of the inputs and at most each input |
| `Calculator.MinThree` | MCP/calculator.py:579-590 | the result is one of the inputs and at most each input |
| `Calculator.MaxTwo` | MCP/calculator.py:594-604 | the result is one of the inputs and at least each input |
| `Calculator.MaxThree` | MCP/calculator.py:608-619 | the result is one of the inputs and at least each input |
| `Calculator.AbsoluteValue` | MCP/calculator.py:623-632 | the result is non-negative and is the value or its negation |
| `Calculator.Lower` | MCP/calculator.py:292-293 | lower-casing keeps the length and maps every character on its own |
| `Calculator.Factor` | MCP/calculator.py:299-300 | a supported unit's factor is positive |
| `Calculator.ConvertWith` | MCP/calculator.py:292-300 | fails with `ValueError("Unsupported unit conversion: <from> to <to>")` exactly when either lower-cased unit is missing from the table |
| `Calculator.RescaleInverse` | MCP/calculator.py:299-300 | rescaling keeps the mass, and rescaling back gives the value back |
| `Calculator.ConvertedScales` | MCP/calculator.py:298-300 | between supported units the result is `value * factor[from] / factor[to]` |
| `Calculator.ConversionKeepsMass` | MCP/calculator.py:298-300 | the converted value denotes as many kilograms as the input |
| `Calculator.ToKgTablePositive` | MCP/calculator.py:277-290 | every factor of the table is positive |
| `Calculator.ToKgTableNames` | MCP/calculator.py:277-290 | the table has exactly twelve names; ton/tonne, pound/lb, gram/g and ounce/oz share factors |
| `Calculator.UnitConversion` | MCP/calculator.py:262-302 | fails exactly when a unit is unsupported; otherwise the rounded conversion through the table |
| `Calculator.ConvertToSameUnit` | MCP/calculator.py:298-300 | converting a supported unit to itself gives the value back |
| `Calculator.ConversionRoundTrip` | MCP/calculator.py:298-300 | converting a to b and back gives the value back |
| `Calculator.ConversionIgnoresCase` | MCP/calculator.py:292-296 | unit names that lower-case alike give the same success and the same result |
| `Calculator.TonToQuintal` | MCP/calculator.py:277-300 | one "Ton" is ten "QUINTAL", whatever the letter case |
| `Calculator.UnknownUnitRejected` | MCP/calculator.py:292-296 | an unknown unit on either side is rejected |
| `Calculator.UnitPrice` | MCP/calculator.py:321-323 | the unrounded unit price times the quantity gives the total price |
| `Calculator.PricePerUnit` | MCP/calculator.py:306-323 | fails with `ZeroDivisionError("Quantity cannot be zero")` exactly when the quantity is 0; otherwise the rounded unit price |
| `Calculator.PricePerUnitInvertsTotalCost` | MCP/calculator.py:306-342 | the unit price of a total cost is the price again; the documented examples price_per_unit(1000,50)=20 and total_cost(25.5,100)=2550 |
| `Calculator.ProfitLossExample` | MCP/calculator.py:346-376 | selling 100 units bought at 25 for 30 gives total 500, 5 per unit and a 20% margin |
| `Calculator.ProfitLossFigures` | MCP/calculator.py:360-376 | without rounding: per-unit = selling − buying price, total = per-unit × quantity, and the margin times the buying price is the per-unit figure times 100 |
| `Calculator.ZeroBuyingPriceMargin` | MCP/calculator.py:367-368 | with a zero buying price the margin is 0, not an error |
| `Calculator.BreakevenGivesDesiredMargin` | MCP/calculator.py:380-395 | selling at the unrounded breakeven price earns exactly the desired margin, as profit_loss_calculation measures margins; breakeven_price(100,20)=120 |
| `Calculator.RangeOrdered` | MCP/calculator.py:411-416 | with monotone rounding that keeps 0: min ≤ median ≤ max, min ≤ average ≤ max, and the spread is not negative |
| `Calculator.PricesRangeOrdered` | MCP/calculator.py:411-448 | the same ordering for the figures of either analysis, whose median is the rounded middle of the sorted prices |
| `Calculator.PriceRangeThreeOrdered` | MCP/calculator.py:399-425 | the same ordering for price_range_analysis_three, whose median is the rounded median_three |
| `Calculator.PriceRangeFiveOrdered` | MCP/calculator.py:428-457 | the same ordering for price_range_analysis_five, whose median is the rounded median_five |
| `Calculator.AscendingRange` | MCP/calculator.py:412-413 | for ascending prices, min and max are the rounded first and last prices |
| `Calculator.AscendingMedianFive` | MCP/calculator.py:443-447 | for ascending prices, the five-price analysis takes the middle price as the median |
| `Calculator.AscendingFiveFigures` | MCP/calculator.py:443-456 | for five ascending prices the figures are the rounded first, last, middle, mean and spread |
| `Calculator.PriceRangeFiveExample` | MCP/calculator.py:428-457 | prices 10,20,30,40,50 give min 10, max 50, average 30, median 30, spread 40 |
| `Calculator.SortedIsFixed` | MCP/calculator.py:237-256 | sorting an ascending list leaves it as it is |
| `Calculator.StorageCostCalculation` | MCP/calculator.py:484-508 | the months stored are reported back as given |
| `Calculator.StorageCostExample` | MCP/calculator.py:497-508 | storage_cost_calculation(100,2,6) gives 12 for storage, 112 per unit and 6 months |
| `Calculator.YieldCurrencyExamples` | MCP/calculator.py:512-546 | yield_per_acre_value(50,25)=1250 and currency_conversion_simple(100,82.5)=8250 |
| `Calculator.CurrencyConversionInverts` | MCP/calculator.py:531-546 | without rounding, the converted amount divided by a non-zero rate is the amount, and converting back at the reciprocal rate gives the amount |
| `Calculator.YieldPerAcreValueMonotone` | MCP/calculator.py:512-527 | with monotone rounding and a non-negative price, a larger yield never gives a smaller value per acre |
| `Calculator.YieldPerAcreValueInverts` | MCP/calculator.py:512-527 | without rounding, the value per acre divided by a non-zero price is the yield |
| `Calculator.StorageCostMonotone` | MCP/calculator.py:500-501 | storing longer never lowers the cost per unit when rounding is monotone and the rate is not negative |
| `Stats.SeqMin` | MCP/calculator.py:412 | `min(prices)` is one of the prices and at most each price |
| `Stats.SeqMax` | MCP/calculator.py:413 | `max(prices)` is one of the prices and at least each price |
| `Stats.SumBounds` | MCP/calculator.py:414 | the sum lies between the count times any lower bound and the count times any upper bound |
| `Stats.MeanBetweenMinAndMax` | MCP/calculator.py:414 | `sum(prices) / len(prices)` lies between the minimum and the maximum |
| `Stats.Insert` | MCP/calculator.py:237-256 | inserting into an ascending list keeps it ascending, adds one element and puts the smaller of the new value and the old head first |
| `Stats.InsertPermutes` | MCP/calculator.py:237-256 | inserting adds exactly the new value to the list's elements |
| `Stats.Sort` | MCP/calculator.py:237-256 | `sorted` gives an ascending list of the same length |
| `Stats.SortPermutes` | MCP/calculator.py:237-256 | `sorted` gives a permutation of its input |
| `Stats.NeighboursSorted` | MCP/calculator.py:237-256 | a list whose neighbours are in order is ascending |
| `Stats.SortCounts` | MCP/calculator.py:237-256 | sorting keeps how many values lie strictly below or above any value |
| `Stats.MiddleOfSortedIsMedian` | MCP/calculator.py:237-257 | the middle element of the sorted values is one of them, with at most half strictly below and half strictly above |
| `Text.StripLeft` | tools/market_price_search.py:155 | drops exactly the leading whitespace |
| `Text.StripRight` | tools/market_price_search.py:155 | drops exactly the trailing whitespace |
| `Text.Strip` | tools/market_price_search.py:155 | the result is a slice of the input with whitespace only outside it, and it neither starts nor ends with whitespace |
| `Text.StripIdempotent` | tools/market_price_search.py:155 | stripping twice strips nothing more |
| `Text.AfterFirst` | tools/market_price_search.py:158 | the result is what follows the first separator |
| `Text.Split` | tools/market_price_search.py:151 | at least one piece, none holding the separator |
| `Text.JoinSplit` | tools/market_price_search.py:151 | joining the pieces of a split gives the text back |
| `Text.SplitJoin` | tools/market_price_search.py:151 | splitting a join of separator-free pieces gives the pieces back |
| `MarketPrice.Location` | tools/market_price_search.py:39-42 | the state alone, or `district + ", " + state` when a district is given |
| `MarketPrice.QueryIsOneTemplate` | tools/market_price_search.py:45-52 | the four templates are one sentence: crop, location, a market clause exactly when a market is given, then the date |
| `MarketPrice.QueryMentions` | tools/market_price_search.py:45-52 | every query names the crop and the state, and the market whenever one is given |
| `MarketPrice.DigitPrefix` | tools/market_price_search.py:168 | the longest run of digits at the start of the text |
| `MarketPrice.NumberPrefix` | tools/market_price_search.py:168 | the digits, then a point and its digits when a digit follows the point |
| `MarketPrice.FirstDigitAt` | tools/market_price_search.py:168 | the position of the first digit, with no digit before it |
| `MarketPrice.SearchFindsFirstNumber` | tools/market_price_search.py:168-169 | no match exactly when the text has no digit; otherwise the number starting at the first digit |
| `MarketPrice.SearchSkipsNonDigits` | tools/market_price_search.py:168 | text without digits in front of a price never changes the price found |
| `MarketPrice.FirstNumber` | tools/market_price_search.py:165-170 | a price is found exactly when the text holds a digit |
| `MarketPrice.WholePriceExample` | tools/market_price_search.py:168-170 | "1500" gives 1500 |
| `MarketPrice.RupeePriceExample` | tools/market_price_search.py:164-170 | "₹1500" gives 1500 |
| `MarketPrice.DecimalPriceExample` | tools/market_price_search.py:168-170 | "2450.75" gives 2450.75 |
| `MarketPrice.NoPriceExample` | tools/market_price_search.py:169 | a line with no digit records no price |
| `MarketPrice.FieldCount` | tools/market_price_search.py:187 | a record holds at most four keys, and none exactly when it is empty |
| `MarketPrice.Step` | tools/market_price_search.py:155-189 | one line sets the header it names, or records its price or unit; a record reaching three keys is flushed and reset; well-formedness is kept |
| `MarketPrice.Kinds` | tools/market_price_search.py:154-155 | one classified line per input line |
| `MarketPrice.RunWellFormed` | tools/market_price_search.py:186-189 | over any lines, every flushed record has exactly three keys and the open record fewer |
| `MarketPrice.RunConcat` | tools/market_price_search.py:154 | lines are read in order: reading `a + b` is reading `b` after `a` |
| `MarketPrice.LastHeaderWins` | tools/market_price_search.py:157-162 | a header holds the text of the last line that sets it |
| `MarketPrice.UnsetHeaderKept` | tools/market_price_search.py:157-162 | a header no line sets keeps its earlier value |
| `MarketPrice.MarketsOnlyGrow` | tools/market_price_search.py:188 | flushed records are never taken back or changed |
| `MarketPrice.DocumentedLayoutDropsUnit` | tools/market_price_search.py:163-189 | min, max and average lines followed by a unit line flush a record without a unit; the unit opens the next record |
| `MarketPrice.PriceLineWithoutNumber` | tools/market_price_search.py:163-182 | a price line without a number changes nothing |
| `MarketPrice.Prices` | tools/market_price_search.py:193-195 | exactly the non-zero prices of that kind, and empty exactly when no record has one |
| `MarketPrice.Summarize` | tools/market_price_search.py:191-204 | no records gives an empty summary; the min is the least non-zero minimum and at most each; the max is the greatest non-zero maximum and at least each; the average is the mean of the non-zero averages; each is present exactly when some record has it; the unit is the first record's, or "per quintal" |
| `MarketPrice.SummaryMinSkipsZero` | tools/market_price_search.py:193-198 | records with minimums 0 and 5 summarise to minimum 5: the zero is skipped by the truthiness filter |
| `MarketPrice.SummaryAverageWithinRange` | tools/market_price_search.py:201-202 | the summary average lies between the least and the greatest non-zero average |
| `MarketPrice.ReadLine` | tools/market_price_search.py:155-189 | one loop iteration computes exactly `Step` on the stripped, classified line |
| `MarketPrice.ExtractPriceData` | tools/market_price_search.py:125-206 | the loop's result is the specification fold over the split lines; the raw response is the input; every flushed record has three keys |
| `MarketPrice.NoMarketsNoSummary` | tools/market_price_search.py:142-147 | without records every summary field stays None |
| `RedisStore.Store.SetEx` | storage/redis/state_history/routing_state_history.py:45-49 | a failure changes nothing; otherwise the value and expiry of the key are replaced and the reply is True |
| `RedisStore.Store.Get` | storage/redis/state_history/routing_state_history.py:83 | a failure raises; otherwise the stored value or None |
| `RedisStore.Store.Expire` | storage/redis/state_history/routing_state_history.py:90-94 | values are unchanged; the expiry of a stored key is reset and the reply says whether it exists |
| `RedisStore.Lookup` | storage/redis/state_history/routing_state_history.py:83 | a value exactly for stored keys, the one stored |
| `RedisStore.WriteLeavesOthers` | storage/redis/state_history/routing_state_history.py:45-49 | a write leaves every other key's value as it was |
| `RedisStore.ReadYourWrite` | storage/redis/state_history/routing_state_history.py:45-83 | reading a key just written gives the written value |
| `StateKeys.WorkflowIdOfStateKey` | storage/redis/state_history/state_key_mapping.py:16 | the prefix is nine characters and dropping it gives the workflow id back |
| `StateKeys.StateKeyOfWorkflowId` | storage/redis/state_history/state_key_mapping.py:16 | every key with the prefix is the state key of the id after it |
| `StateKeys.StateKeyHasPrefix` | storage/redis/state_history/state_key_mapping.py:16 | every state key starts with `workflow:` |
| `StateKeys.StateKeyInjective` | storage/redis/state_history/state_key_mapping.py:16 | distinct workflow ids give distinct keys |
| `StateKeys.RecordKey` | storage/redis/state_history/routing_state_history.py:27 | a record's key is its workflow's state key followed by the record's suffix (`:routing_state`, `:final_output`, `:status`, `:workflow_name`, `:sub_agent`) |
| `StateKeys.RecordKeysDistinct` | storage/redis/state_history/final_output.py:26 | records of different kinds never share a key, whatever the ids |
| `StateKeys.RecordKeyInjective` | storage/redis/state_history/sub_agent_history.py:24 | records of one kind for distinct workflows never share a key |
| `StateHistory.AfterRead` | storage/redis/state_history/routing_state_history.py:90-94 | after a load, only the key read has its expiry reset, and only when a value was found and `EXPIRE` did not fail |
| `StateHistory.TextLoaded` | storage/redis/state_history/workflow_status_history.py:58-94 | the default for an empty id or a failure; otherwise the stored text, or the default when it is missing or empty |
| `StateHistory.TextRoundTrip` | storage/redis/state_history/sub_agent_history.py:31-84 | a saved non-empty text loads back; an empty one loads as the default |
| `StateHistory.TextIgnoresOtherWrites` | storage/redis/state_history/workflow_name_history.py:34-90 | writing any other record, of any workflow, does not change what a text load returns |
| `StateHistory.OtherRecordOtherKey` | storage/redis/state_history/state_key_mapping.py:16 | two different (workflow, record) pairs use different keys |
| `StateHistory.RoutingRecord` | storage/redis/state_history/routing_state_history.py:36-39 | the record has exactly the keys `next_agent` and `previous_agent` |
| `StateHistory.SaveRoutingState` | storage/redis/state_history/routing_state_history.py:10-62 | returns True exactly when the id is non-empty and the write succeeds; then only the `:routing_state` key is written, with the JSON of the pair and a fresh expiry; otherwise the store is unchanged |
| `StateHistory.LoadRoutingState` | storage/redis/state_history/routing_state_history.py:65-116 | values unchanged; the result is the decoded pair, or the empty pair for an empty id, a missing or empty value, a failure or a non-object; expiry reset as `AfterRead` says |
| `StateHistory.RoutingRoundTrip` | storage/redis/state_history/routing_state_history.py:36-109 | a saved pair loads back unchanged, when `json.loads` gives back what `json.dumps` made of that pair |
| `StateHistory.RoutingNonObjectIsEmpty` | storage/redis/state_history/routing_state_history.py:101-116 | a stored value that is not a JSON object loads as the empty pair |
| `StateHistory.RoutingIgnoresOtherWrites` | storage/redis/state_history/routing_state_history.py:45-49 | writing any other record does not change the pair a load returns |
| `StateHistory.SaveFinalOutput` | storage/redis/state_history/final_output.py:10-53 | True exactly when the id is non-empty and the write succeeds; then only `:final_output` is written, with a fresh expiry; otherwise the store is unchanged |
| `StateHistory.LoadFinalOutput` | storage/redis/state_history/final_output.py:56-102 | values unchanged; the decoded value, or `{}` for an empty id, a missing or empty value, a failure or undecodable text; expiry reset as `AfterRead` says |
| `StateHistory.FinalOutputRoundTrip` | storage/redis/state_history/final_output.py:33-95 | a saved dictionary loads back unchanged, when `json.loads` gives back what `json.dumps` made of it |
| `StateHistory.FinalOutputAbsentIsEmpty` | storage/redis/state_history/final_output.py:76-78 | an absent key or a failed read loads as `{}` |
| `StateHistory.SaveWorkflowStatus` | storage/redis/state_history/workflow_status_history.py:8-45 | True exactly when the id is non-empty and the write succeeds; then only `:status` is written, with a fresh expiry; otherwise the store is unchanged |
| `StateHistory.LoadWorkflowStatus` | storage/redis/state_history/workflow_status_history.py:48-94 | "PROCESSING" without a client; otherwise values unchanged, the text load with default "PROCESSING", and expiry reset as `AfterRead` says |
| `StateHistory.SaveWorkflowName` | storage/redis/state_history/workflow_name_history.py:8-48 | True exactly when the id is non-empty, a client exists and the write succeeds; then only `:workflow_name` is written; otherwise the store is unchanged |
| `StateHistory.LoadWorkflowName` | storage/redis/state_history/workflow_name_history.py:51-94 | "" without a client; otherwise values unchanged, the text load with default "", and expiry reset as `AfterRead` says |
| `StateHistory.SaveSubAgent` | storage/redis/state_history/sub_agent_history.py:8-45 | True exactly when the id is non-empty and the write succeeds; then only `:sub_agent` is written; otherwise the store is unchanged |
| `StateHistory.LoadSubAgent` | storage/redis/state_history/sub_agent_history.py:48-88 | values unchanged; the text load with default "", and expiry reset as `AfterRead` says |
| `ClientMix.Call` | storage/redis/state_history/workflow_status_history.py:31-35 | a call completes exactly when the client is asyncio and the call is awaited, or blocking and not awaited; an un-awaited asyncio call never runs, and an awaited blocking call runs and then raises |
| `ClientMix.MixedCallSitesDisagree` | storage/redis/state_history/workflow_status_history.py:31-35 | no kind of client lets both the awaited `setex` of `save_workflow_status` and the un-awaited calls of the other modules complete |
| `ClientMix.BlockingStatusSaveWritesButFails` | storage/redis/state_history/workflow_status_history.py:23-45 | with a blocking client, `save_workflow_status` writes the status, which a load then returns, yet reports failure |
| `ClientMix.AsyncioSavesAreLost` | storage/redis/state_history/routing_state_history.py:45-116 | with an asyncio client, the routing, final-output and sub-agent saves report success and store nothing; the routing pair loads as the empty pair, the final output as `{}`, and `load_sub_agent` returns the coroutine object |
| `ClientMix.NoClientKindServesBothFamilies` | storage/redis/state_history/workflow_status_history.py:31-42 | whatever the client's kind, a save of workflow "w" goes wrong: the status save reports failure, or the saved routing pair does not load back |
| `ClientMix.CompletingCallsAreTheModel` | storage/redis/state_history/routing_state_history.py:45-109 | where a call site's calls complete, the as-written saves write their key and report success, and the loads are the ones the `StateHistory` methods model |
| `AgentHistory.MessagesWrite` | storage/redis/agent_history/save_history.py:26-48 | a write happens exactly when the id and agent type are non-empty and the messages are truthy, and it goes to the message key of that id and agent type |
| `AgentHistory.SavedHistoryDecodes` | storage/redis/agent_history/save_history.py:41-48 | after the write, the value stored under the history key decodes back to the messages saved, when `json.loads` gives back what `json.dumps` made of them |
| `AgentHistory.SaveMessages` | storage/redis/agent_history/save_history.py:10-55 | an empty id or agent type gives False; empty messages give True; otherwise the result is True exactly when a client exists and the write succeeds; only then is the whole value under the message key replaced, with a fresh expiry; otherwise the store is unchanged |
| `Graphs.Successors` | main.py:98-108 | a node's successors are exactly its edge targets and its branch targets |
| `Graphs.StateGraph.AddNode` | main.py:94-96 | adds exactly that node; edges and branches unchanged |
| `Graphs.StateGraph.AddEdge` | main.py:98 | adds exactly that edge; nodes and branches unchanged |
| `Graphs.StateGraph.AddConditionalEdges` | main.py:100-108 | the path map becomes the source's branch table; nodes and edges unchanged |
| `Graphs.SingleNodeIsOnePass` | agents/market_price_agent/graph.py:66-73 | the single-node graph is complete; START leads only to the node, the node only to END, and no other name leads anywhere |
| `Graphs.BuildSingleNodeGraph` | agents/gov_scheme_agent/graph.py:62-69 | the builder calls produce exactly the single-node graph |
| `AgentNodes.History.Append` | agents/market_price_agent/graph.py:38-41 | appends exactly the turn; the saved histories are unchanged |
| `AgentNodes.History.Save` | agents/market_price_agent/graph.py:42 | stores the current messages under the workflow id; the messages are unchanged |
| `AgentNodes.MarketPromptMentions` | agents/market_price_agent/graph.py:24-30 | the prompt contains the rendered history and the rendered user input |
| `AgentNodes.GovPromptMentions` | agents/gov_scheme_agent/graph.py:17-26 | the prompt contains the workflow id, the rendered history and the rendered user input |
| `AgentNodes.ReplyHandsBack` | agents/market_price_agent/graph.py:44-62 | after a reply the next step is END, `previous` names the agent, the output is the answer with no input, and the workflow id and agent name are kept |
| `AgentNodes.TakeTurn` | agents/market_price_agent/graph.py:32-42 | the answer is the agent's answer to the prompt; exactly one turn (prompt, answer) is appended and the history is saved under the workflow id |
| `AgentNodes.MarketPriceAgent` | agents/market_price_agent/graph.py:8-62 | a missing input key fails with `KeyError` and the history is untouched; a falsy input answers "No data found!!!" and the history is untouched; a truthy input appends one turn with the prompt and the answer, saves it, and returns that answer; every reply has next END and previous "market_price_agent" |
| `AgentNodes.GovSchemeAgent` | agents/gov_scheme_agent/graph.py:9-58 | the same, with the workflow id in the prompt, "Sorry something went wrong!!!" as the canned answer, and previous "gov_scheme_agent" |
| `AgentNodes.BuildMarketPriceGraph` | agents/market_price_agent/graph.py:66-73 | the subgraph is START → market_price_agent → END |
| `AgentNodes.BuildGovSchemeGraph` | agents/gov_scheme_agent/graph.py:62-69 | the subgraph is START → gov_scheme_agent → END |
| `Workflow.AgentRouter` | main.py:78-89 | the update carries only `agent_name`, equal to the state's |
| `Workflow.RouterKeepsState` | main.py:88-89 | merging the router's update changes nothing |
| `Workflow.Route` | main.py:100-108 | a route exists exactly when the state's `agent_name` is in the path map |
| `Workflow.RouteTableEntries` | main.py:100-108 | the path map has exactly three keys; each agent name leads to its node, None to END, and any other name fails |
| `Workflow.GetUserInput` | main.py:17-54 | `previous` is "user_input" in both branches; with a previous agent, next is that agent and the update carries the resumed input; without one, next is END and the update carries no input/output |
| `Workflow.UserInputResumesPrevious` | main.py:31-52 | after the merge the state goes back to the previous agent with the new input and no output, or ends with input and output kept |
| `Workflow.TopGraphShape` | main.py:94-108 | the graph is complete with exactly three nodes, not including `get_user_input`; START leads only to the router, the router to either agent or END, and the agents nowhere |
| `Workflow.BuildTopGraph` | main.py:92-108 | the module-level builder calls produce exactly that graph |
| `Workflow.SubgraphFinalStateMergesAsUpdate` | main.py:58-75 | the node returns its compiled subgraph, which runs on the state; merging that run's final state into the parent gives the same state as merging the agent node's own update |
| `Workflow.MarketPriceNode` | main.py:58-68 | the node as written, which runs its subgraph on the state: it succeeds exactly when the input key is present; the merged state goes to END with previous "market_price_agent"; a falsy input gives the canned answer and leaves the history untouched; a truthy input grows the history by one turn, keeps earlier turns, and outputs that turn's answer |
| `Workflow.GovSchemeNode` | main.py:71-75 | the node as written, which runs its subgraph on the state: the same for the scheme agent and its canned answer |
| `OutputModel.ParseUnitText` | agents/market_price_agent/output_model.py:6-16 | every unit parses back from its value |
| `OutputModel.UnitTextParse` | agents/market_price_agent/output_model.py:6-16 | a text parses only to the unit whose value it is |
| `OutputModel.NineUnits` | agents/market_price_agent/output_model.py:6-16 | there are exactly nine units, with distinct values |
| `OutputModel.OptionalKeepsGiven` | agents/market_price_agent/output_model.py:47-62 | an optional field keeps a given value, and is None when left out or null |
| `OutputModel.MarketInfoRoundTrip` | agents/market_price_agent/output_model.py:18-26 | a dumped market validates back to itself |
| `OutputModel.MarketInfoDefaults` | agents/market_price_agent/output_model.py:18-26 | an empty object is a market with every field None |
| `OutputModel.PriceSummaryRoundTrip` | agents/market_price_agent/output_model.py:28-34 | a dumped summary validates back to itself |
| `OutputModel.PriceSummaryDefaults` | agents/market_price_agent/output_model.py:28-34 | an empty object is a summary with every field None |
| `OutputModel.CalculationResultRoundTrip` | agents/market_price_agent/output_model.py:36-41 | a dumped calculation result validates back to itself |
| `OutputModel.MarketListRoundTrip` | agents/market_price_agent/output_model.py:58 | a dumped market list validates back to itself |
| `OutputModel.CalculationListRoundTrip` | agents/market_price_agent/output_model.py:66 | a dumped list of calculation results validates back to itself |
| `OutputModel.TextListRoundTrip` | agents/market_price_agent/output_model.py:71 | a dumped list of sources validates back to itself |
| `OutputModel.FullResponseRequired` | agents/market_price_agent/output_model.py:74 | without `full_response` validation fails |
| `OutputModel.ExtraKeysRejected` | agents/market_price_agent/output_model.py:85 | any undeclared key is rejected and named in the error |
| `OutputModel.ValidateDefaults` | agents/market_price_agent/output_model.py:43-79 | only `full_response` given: the flags default to False, True and False, the lists to [], and the rest to None |
| `OutputModel.ValidatedFlags` | agents/market_price_agent/output_model.py:58-75 | a valid record keeps the response, flags and crop it was given, and defaults the flags and lists it was not given |

## Left out

- Binary floating point and Python's `round`: numbers are exact reals and rounding is a parameter. The figures of the calculator examples hold for any rounding that keeps whole numbers.
- `power` and `compound_interest` (MCP/calculator.py:101-115, 460-480): they need real exponentiation.
- The MCP server start-up (MCP/calculator.py:635-639).
- `Calculator.AverageTwo`, `AverageThree`, `AverageFive`, `RoundToPrecision`, `TotalCost`, `ProfitLossCalculation`, `BreakevenPrice`, `PriceRangeAnalysisThree`, `PriceRangeAnalysisFive`, `YieldPerAcreValue`, `CurrencyConversionSimple`: these are plain functions. Their properties are the lemmas listed above.
- `Calculator.StorageCostCalculation`: its own contract states only the months. Its figures are stated by `StorageCostExample` and `StorageCostMonotone`.
- `Calculator.Lower`: lower-cases only A–Z and the Kelvin sign. No other character's lower-case form can reach a name in the unit table.
- Regular expressions: `\d` is taken as the ASCII digits, where Python also matches other Unicode decimal digits. `float()` of the matched text is an exact decimal.
- The `except` branch of `extract_price_data` (tools/market_price_search.py:208-212) is not modelled: nothing in the modelled body raises.
- The HTTP request of `market_price_search`, its response handling and the `SEARCH DATE` prefix it adds (tools/market_price_search.py:106-122): they are I/O. Today's date is a parameter of the query.
- `MarketPrice.Location` is computed by the source, but no template uses it. The model keeps it as a separate function.
- Redis: `get_redis_client` and the configuration module are not part of this model.
  - The client is a `Store` object, or null when unavailable.
  - A failing call is the `failure` argument.
  - Time does not pass, so expiry is only the `ttl` value set on write and reset on read.
  - Concurrent writers are not modelled.
- `StateHistory.SaveRoutingState`, `LoadRoutingState`, `SaveFinalOutput`, `LoadFinalOutput`, `SaveWorkflowStatus`, `SaveSubAgent`, `LoadSubAgent`: these model a client whose every call completes and returns its reply. As written, the module-level `redis_client` is awaited in `save_workflow_status` and not in the routing, final-output and sub-agent modules, so one of the two families fails whichever kind of client it is. `ClientMix` models the calls as written; see "## Findings".
- `StateKeys.StateKey` (storage/redis/state_history/state_key_mapping.py:16), whose properties are `StateKeyHasPrefix`, `StateKeyInjective`, `WorkflowIdOfStateKey` and `StateKeyOfWorkflowId`; `MarketPrice.Query` (tools/market_price_search.py:45-52), `MarketPrice.Classify` (tools/market_price_search.py:157-185), `OutputModel.Validate` (agents/market_price_agent/output_model.py:43-85) and `ClientMix.SetExAsWritten`, `SaveStatusAsWritten`, `SaveRoutingAsWritten`, `LoadRoutingAsWritten`, `SaveFinalOutputAsWritten`, `LoadFinalOutputAsWritten`, `SaveSubAgentAsWritten`, `LoadSubAgentAsWritten` (the `setex`, `get` and `expire` call sites of the state modules): these are plain functions computing what the cited code computes. Their properties are the lemmas listed above: `QueryIsOneTemplate` and `QueryMentions`; `Step`, `ReadLine` and `ExtractPriceData`; `FullResponseRequired`, `ExtraKeysRejected`, `ValidateDefaults` and `ValidatedFlags`; and the `ClientMix` lemmas.
- Running a node's returned subgraph: `market_price_agent` and `gov_scheme_agent` (main.py:58-75) return their compiled subgraph. The model relies on LangGraph running a returned compiled graph on the node's state. `Workflow.MarketPriceNode` and `Workflow.GovSchemeNode` model that run.
- The byte-decoding steps of the routing record (routing_state_history.py:30-33, 97-98, 104-106) change nothing on `str` values. Stored values are strings, and `json.loads` never yields bytes.
- JSON serialisation: `json.dumps`/`json.loads` are a parameter pair. Each round-trip lemma assumes, for the one value it saves, that `loads(dumps(v)) == v` and that `dumps(v)` is not empty (`RoundTripsOn`). The serialisation error branches are covered by the `failure` argument.
- `get_message_key` is a parameter of `AgentHistory`, since its module is not part of this model.
- `execute_agent_safely`, the agents' configuration and the prompt modules are not modelled. The agent's answer, `result.data.model_dump()`, is the function `respond`.
- `BaseAgentHistory.load_or_create` and `save` are not part of this model. The loaded history is the `History` object passed in, and `save` records the messages per workflow id in `persisted`.
- Python's `str()` of the history list and of the input is the `Renderer` parameter.
- LangGraph's compilation, execution and checkpointing are not modelled, and neither is the MongoDB saver (main.py:110-114). Also not modelled: the `interrupt` mechanism, whose resumed value is a parameter. The model keeps the graph's shape, the route table and the merge of a node's update into the state.
- `SystemState`: the `workflow_id`, `routing` and `agent_input_output` keys are taken to be present. Only the keys of `agent_input_output` come and go.
- Pydantic: lax coercions (numeric strings to numbers and the like) and `validate_assignment` are not modelled. `Validate` reports one error class: extra keys first, then a missing `full_response`, then a wrongly typed field. Pydantic instead collects all errors.
- `OutputModel`: that `model_dump` of a whole `MarketPriceAgentOutput` validates back to it is not proved. This is proved for each nested record and each list field.
- `input_parameters` of `CalculationResult` holds any JSON object and is kept as given.
- `PriceUnit` is declared but no field uses it. It is modelled with its parse and text functions.

## Findings

| source | as written | input that shows it | evidently intended | confidence | as-written member | corrected member |
|---|---|---|---|---|---|---|
| storage/redis/state_history/workflow_status_history.py:31-35 | `save_workflow_status` awaits `redis_client.setex`, while `save_routing_state`, `load_routing_state`, `save_final_output`, `load_workflow_final_output`, `save_sub_agent` and `load_sub_agent` call `redis_client.setex`, `get` and `expire` without `await` (routing_state_history.py:45, 83, 91; final_output.py:36, 74, 82; sub_agent_history.py:31, 66, 74) | a blocking client: `save_workflow_status("w", "COMPLETED")` writes and returns False. An asyncio client: `save_routing_state("w", "market_price_agent", "user_input")` returns a truthy coroutine and writes nothing, and `load_routing_state("w")` returns the empty pair | every call on the shared client is awaited, or none is, to match its kind: each save writes its key and returns True, and each load reads what was saved | high, not executed; it rests on Python raising TypeError when a plain value is awaited and on an asyncio client's commands being coroutines | `ClientMix.NoClientKindServesBothFamilies` | `ClientMix.CompletingCallsAreTheModel`, `StateHistory.RoutingRoundTrip`, `StateHistory.SaveWorkflowStatus` |
