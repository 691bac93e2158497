# A Dafny model of the trading data plane

Dafny models of the FPGA data plane, its host protocol library and its paper-trading back end, with proofs of what each
cluster is for. The hardware modules are models of their clocked blocks: a value holding every register, a function that
maps the registers before an edge and the inputs to the registers after it, and a class with the same registers whose
`Tick` is proved to compute that function. The Python and C++ parts are classes and loops proved against
specification functions. Properties are then proved of the functions, over all runs.

| files | what they model |
|---|---|
| `protocol_defs.dfy`, `bits.dfy`, `bytes.dfy` | protocol constants; register widths, modular counters, bytes and their values |
| `gray_code.dfy`, `async_fifo.dfy` | the dual-clock FIFO under every interleaving of clock edges |
| `divider.dfy`, `normalizer.dfy`, `normalizer_correct.dfy` | the bit-serial divider and the five-operation normaliser, with exact timing |
| `market_types.dfy`, `market_model.dfy`, `market_history.dfy` | the integer reference model, and what its rolling sums mean |
| `market_engine.dfy`, `market_refinement.dfy`, `market_run.dfy` | the fourteen-state engine and its refinement of the reference model |
| `market_meaning.dfy` | what the features of both say of the events |
| `strategy_model.dfy`, `strategy_rules.dfy`, `signal_engine.dfy` | candidate decisions, when they fire, and the engine that registers them |
| `strategy_config.dfy`, `slot_reset.dfy`, `end_to_end.dfy`, `slot_reset_reach.dfy` | the configuration bank, the slot-reset handshake, the wired engines against both models, and what resets do in runs from power-up |
| `config_meaning.dfy` | what the settings are after any run |
| `crc8.dfy`, `crc_polynomial.dfy`, `host_protocol.dfy` | CRC-8 by block, by stream and as a polynomial remainder; the packet codec and what corruption it detects |
| `dispatcher.dfy`, `loopback.dfy`, `packet_path.dfy`, `packet_drain.dfy` | packet classification and status responses under arbitrary stalls, and that the path empties |
| `trading_core.dfy`, `host_view.dfy`, `packet_link.dfy`, `core_deadlock.dfy` | the whole system-clock domain from packets to records, what it is told in the host's terms, both FIFOs around it, and two packets that hang it |
| `capacity_queue.dfy` | the single-server finite queue and its busy intervals |
| `execution.dfy`, `portfolio.dfy`, `portfolio_accounting.dfy`, `portfolio_rules.dfy`, `trade_meaning.dfy` | orders, fills, positions, cash and marks, and what they amount to in money |
| `backtest_replay.dfy`, `backtest_fills.dfy`, `backtest_timing.dfy` | the replay: what every run keeps, and when and where fills happen |
| `backtest_pipeline.dfy`, `backtest_engine.dfy`, `backtest_meaning.dfy`, `backtest_stranding.dfy` | events through both models into the replay, the event loop, whose answers it trades on, and a replay that raises |
| `forward_returns.dfy` | streaming forward returns |
| `timestamp.dfy` | RFC 3339 timestamps |

Money is exact: prices are integers in micro-dollars and cash is real, so float rounding is outside the model. Inputs of
the hardware are arbitrary but respect their port widths. Clocks, I/O and randomness do not appear: a run is a sequence of
edges or events with their inputs.

## Where the code differs from what is said of it

- `STATUS_CONFIG_BUSY`: the protocol document lists it as an answer to a control packet while a slot reset pends. The bank
  computes it, but its write port is not ready at exactly those times, so no handshake returns it
  (`StrategyConfig.BusyNeverAtHandshake`).
- Slot reset: a reset that becomes pending while an event that will produce a feature is in flight, or while a feature is
  held, never completes, and from then on the system accepts nothing. `SlotResetReach.EveryPendingReset` is the exact
  condition in runs from reset; `CoreDeadlock.ClearBehindTradeHangs` reaches it with two valid packets.
- Reject pulse: an edge that completes a slot reset does not clear it, so the engine by itself could count a pulse twice
  (`MarketRun.PulsePerRejection`). In the wired system that never happens: the serial dispatcher cannot bring the clear
  command in time, and the counter is exact (`TradingCore.CounterCountsRejections`).
- End of day: `flatten` looks a position's symbol up in the features of the session with the whole mapping as the fallback;
  a position left open whose symbol had no feature in the session makes the replay raise an attribute error.
  `BacktestStranding.StrandingRaises` is an input, with the default strategy, portfolio and execution settings but windows
  of one observation and the strategy enabled; `BacktestReplay.FlattenRaisesIffStranded` is the exact condition. Nor is
  the book always flat afterwards: `BacktestReplay.FlatAfterFlattenIff` says when it is.
- Timestamps: second 60 is accepted and counted as one more second of its minute, so it overlaps the first second of the
  next. Order is lost exactly there (`Timestamp.OrderLostIff`): between readings of the two overlapping seconds whose
  fractions do not grow. `Timestamp.LeapSecondReverses` is an input on which it is reversed.

## Model

| member | source | states |
|---|---|---|
| AsyncFifo.AsyncPacketFifo.WriteEdge | fpga/rtl/fifo/async_packet_fifo.sv:55-72 | one write-clock edge from the pre-edge registers: storage, pointer, Gray code, two synchroniser flops, full flag and overflow counter; nothing else changes |
| AsyncFifo.AsyncPacketFifo.ReadEdge | fpga/rtl/fifo/async_packet_fifo.sv:74-90 | one read-clock edge: pointer, Gray code, synchroniser, empty flag and underflow counter; storage is not touched |
| GrayCode.InvertedIsHalfRangeAhead | fpga/rtl/fifo/async_packet_fifo.sv:41-46 | inverting the two top bits of a Gray code is the code half the pointer range ahead, for every pointer and every power-of-two depth of at least four |
| GrayCode.GrayInjective | fpga/rtl/fifo/async_packet_fifo.sv:38-39 | different pointers have different Gray codes |
| GrayCode.CountingFlipsOneBit | fpga/rtl/fifo/async_packet_fifo.sv:38-39 | successive pointers, wrap-around included, have Gray codes one bit apart |
| GrayCode.TornIsOldOrNew | fpga/rtl/fifo/async_packet_fifo.sv:64-65 | a sample mixing bits of two codes one bit apart is one of the two codes |
| AsyncFifoSafety.FullMeansDepthAhead | fpga/rtl/fifo/async_packet_fifo.sv:41-46 | with at most DEPTH packets between two counters, the Gray full test holds exactly when they are DEPTH apart |
| AsyncFifoSafety.DoutIsNext | fpga/rtl/fifo/async_packet_fifo.sv:53 | whenever the empty flag is low the addressed word is the oldest accepted and undelivered packet |
| AsyncFifoSafety.TornSampleCodes | fpga/rtl/fifo/async_packet_fifo.sv:64-65 | a pointer sampled while it moves is the old code or the new one |
| AsyncFifoSafety.NextKeepsInv | fpga/rtl/fifo/async_packet_fifo.sv:34-90 | every write edge, read edge or coincident pair of edges, with stale or torn samples, keeps the invariant that stale pointers are conservative and the storage window holds the undelivered packets |
| AsyncFifoSafety.CoincidentKeepsInv | fpga/rtl/fifo/async_packet_fifo.sv:34-90 | edges of both clocks at the same instant, each sampling the other pointer in flight, keep the invariant |
| AsyncFifoSafety.FifoSafety | fpga/rtl/fifo/async_packet_fifo.sv:34-90 | for every interleaving of edges, packets delivered are a prefix of packets accepted, in order, and occupancy never exceeds the depth |
| AsyncFifoSafety.QuietWriterDrains | fpga/rtl/fifo/async_packet_fifo.sv:47-53 | after any run, once writing stops, as many read edges as packets held plus three deliver everything accepted |
| AsyncFifoSafety.QuietReaderFullIsExact | fpga/rtl/fifo/async_packet_fifo.sv:41-46 | after any run, three quiet write edges make the full flag say exactly whether DEPTH packets are held |
| Divider.UnsignedDivider.Tick | fpga/rtl/math/unsigned_divider.sv:40-84 | one edge of the bit-serial divider, start, divide-by-zero, shift and finish |
| Divider.TickDivides | fpga/rtl/math/unsigned_divider.sv:32-38 | after each bit the quotient so far times the divisor plus the remainder is the consumed numerator prefix, and the remainder is below the divisor |
| Divider.FinishesQuotient | fpga/rtl/math/unsigned_divider.sv:75-78 | the edge that consumes the last bit raises done with the quotient |
| Divider.DividerIsExact | fpga/rtl/math/unsigned_divider.sv:40-84 | a started division is busy for exactly NUMERATOR_WIDTH edges and then reports the floor quotient, whatever its inputs do meanwhile |
| Normalizer.FeatureNormalizer.Tick | fpga/rtl/math/feature_normalizer.sv:233-404 | one edge of the five-operation scheduler and its divider |
| NormalizerCorrect.ShiftAddScales | fpga/rtl/math/feature_normalizer.sv:102-119 | the shift-and-add scaling by 1,000,000 equals the product whenever the product fits the divider |
| NormalizerCorrect.SaturateBpsIsSaturate | fpga/rtl/math/feature_normalizer.sv:216-231 | magnitude-and-sign saturation is saturation of the signed value to 32 bits |
| NormalizerCorrect.SaturateImbalanceIsSaturate | fpga/rtl/math/feature_normalizer.sv:199-214 | magnitude-and-sign saturation is saturation of the signed value to 16 bits |
| NormalizerCorrect.OperationCompletes | fpga/rtl/math/feature_normalizer.sv:309-403 | one operation takes one edge if skipped, the divider width plus three for VWAP and imbalance, plus four for basis points, and leaves the reference result (its VWAP modulo 2^64) |
| NormalizerCorrect.NormalizerIsExact | fpga/rtl/math/feature_normalizer.sv:233-404 | a loaded record is finished exactly after the sum of its operations' edges and not before, with the truncated and saturated reference results from the VWAP quotient modulo 2^64, whatever the input pins do |
| NormalizerCorrect.RegisterLosesNothing | fpga/rtl/math/feature_normalizer.sv:363-367 | when the quotient is below 2^64, as MarketHistory.VwapFits64 shows of every reachable one, those are the reference results |
| NormalizerCorrect.DefaultLatency | fpga/rtl/math/feature_normalizer.sv:46-51 | with default widths that is at most 523 edges, reached exactly when all five operations are valid |
| NormalizerCorrect.DefaultParametersAreValid | fpga/rtl/math/feature_normalizer.sv:46-51 | default widths leave the scaled magnitudes room in the divider |
| MarketTypes.TruncDivTowardZero | tools/reference_model/market_model.py:56-62 | signed division truncates toward zero: the remainder is smaller than the divisor and the product lies between zero and the numerator |
| MarketTypes.SaturateClamps | tools/reference_model/market_model.py:65-68 | saturation clamps into the signed range and leaves representable values alone |
| MarketModel.RollKeepsRing | tools/reference_model/market_model.py:273-292 | replacing the entry at the write pointer keeps the incremental sum equal to the sum of the live entries |
| MarketModel.ProcessEvent | tools/reference_model/market_model.py:222-253 | a refused event changes no symbol; an accepted one keeps every ring and pointer well formed |
| MarketModel.SymbolState.PushTrade | tools/reference_model/market_model.py:273-280 | the mutating trade push computes the specified new symbol |
| MarketModel.SymbolState.PushVwap | tools/reference_model/market_model.py:282-292 | the mutating VWAP push computes the specified new symbol |
| MarketModel.SymbolState.ComputeFeature | tools/reference_model/market_model.py:294-402 | the feature is computed before the midpoint is pushed, from the sums and the oldest midpoint; what its fields then are is MarketMeaning.FeaturesMean |
| MarketModel.Model.Process | tools/reference_model/market_model.py:222-253 | the mutating model returns the specified outcome and touches only the selected symbol |
| MarketModel.Model.ResetState | tools/reference_model/market_model.py:209-220 | every symbol is replaced by a fresh one |
| MarketHistory.RolledIsLatestSum | tools/reference_model/market_model.py:273-292 | the incremental sum is the sum over the last min(n, window) entries |
| MarketHistory.HoldsOldest | tools/reference_model/market_model.py:294-309 | a full ring's entry at the pointer is the one exactly a window earlier |
| MarketHistory.ModelMeansHistory | tools/reference_model/market_model.py:222-402 | over any run, every outcome equals the one computed from unbounded histories, whose meaning is MarketMeaning.FeaturesMean: window sums of the latest trades, momentum against the midpoint exactly momentum_window valid observations earlier |
| MarketHistory.SumsFit | fpga/rtl/market/market_state_engine.sv:644-674 | rolling sums of in-range trades fit the accumulator widths the hardware derives |
| MarketHistory.VwapBetweenPrices | fpga/rtl/math/feature_normalizer.sv:363-367 | the VWAP quotient lies between the least and greatest price in the window |
| MarketHistory.VwapFits64 | fpga/rtl/math/feature_normalizer.sv:363-367 | so it fits 64 bits and keeping 64 quotient bits loses nothing |
| MarketEngine.MarketStateEngine.Tick | fpga/rtl/market/market_state_engine.sv:423-776 | one edge of the engine and its normaliser, slot reset included |
| MarketEngine.TickKeepsShape | fpga/rtl/market/market_state_engine.sv:423-776 | no edge leaves a pointer outside its memory |
| MarketRefinement.WorkIsApplied | fpga/rtl/market/market_state_engine.sv:644-674 | the truncating datapath computes the model's updated symbol |
| MarketRefinement.FeatureIsModelled | fpga/rtl/market/market_state_engine.sv:676-712 | the raw feature is the model's, the normaliser's inputs fit it, and stale memory cannot reach the result while the window is cold |
| MarketRefinement.WrittenIsLive | fpga/rtl/market/market_state_engine.sv:747-760 | the history write makes the live ring entries those of the model's new symbol |
| MarketRefinement.ClearedIsFresh | fpga/rtl/market/market_state_engine.sv:502-511 | a cleared slot stands for a fresh symbol whatever its memories still hold |
| MarketRefinement.ReplayRepresents | tools/reference_model/market_model.py:222-402 | over any series of events and slot resets the model's symbols stand for the full histories since each symbol's reset |
| MarketRun.InvStep | fpga/rtl/market/market_state_engine.sv:423-776 | every edge, under arbitrary inputs, stalls and slot resets, keeps the refinement invariant |
| MarketRun.EngineRefinesModel | fpga/rtl/market/market_state_engine.sv:502-776 | in every run from reset the emitted outcomes are the model's for the events taken, in order, missing at most the one in flight; idle memories stand for the model's symbols |
| MarketRun.LatencyIsExact | fpga/rtl/market/market_state_engine.sv:515-776 | an accepted event is offered as a feature exactly 12 (quote) or 13 (trade) edges plus the normaliser's edges after it is taken, not before |
| MarketRun.DefaultLatencyBound | fpga/rtl/market/market_state_engine.sv:515-776 | by default that is at most 536 edges |
| MarketRun.PulsePerRejection | fpga/rtl/market/market_state_engine.sv:502-515 | of the engine by itself: the reject pulse is high for one cycle per event turned away, except that an edge completing a slot reset would stretch a pulse already high |
| MarketMeaning.FeaturesMean | tools/reference_model/market_model.py:222-402 | at every event of every run, slot resets included, told of the events alone: an event out of range or not newer is refused for its first fault; otherwise book sides are the latest accepted side-0 and side-1 quotes, and while both exist uncrossed spread + bid = ask, the midpoint is half of bid + ask rounded down, momentum is its signed move since the one momentum_window two-sided observations earlier, the imbalance is bid less ask quantity over their sum, and otherwise these are invalid and zero; volumes and turnover are those of the latest trades |
| MarketMeaning.EngineOutcomesMean | fpga/rtl/market/market_state_engine.sv:502-776 | so in every run of the hardware from reset the outcomes emitted, and the feature held, are what the events taken are due |
| StrategyModel.Strategy.Evaluate | tools/reference_model/strategy_model.py:110-219 | the mutating evaluation returns the specified record, updates only the evaluated symbol and counts it in the metrics |
| StrategyModel.Strategy.ResetState | tools/reference_model/strategy_model.py:91-98 | every symbol is disarmed; configuration and counters stay |
| StrategyModel.Strategy.ResetSymbol | tools/reference_model/strategy_model.py:100-104 | clearing a symbol disarms that symbol only; an unknown symbol is refused |
| StrategyRules.ScoreCountsReasonBits | tools/reference_model/strategy_model.py:174-188 | the score of every record is the number of set bits among its low five reason bits |
| StrategyRules.ReasonSays | tools/reference_model/strategy_model.py:163-205 | bits 5 to 13 of every record say, one each, which side passed all conditions, that it was held back by the cooldown or did not fire, that an input was missing, and what is switched off |
| StrategyRules.CandidatesAreSpaced | tools/reference_model/strategy_model.py:163-205 | with constant cooldown c >= 1 two candidates of a symbol are at least c evaluations apart, opposite ones c + 1 |
| StrategyRules.SustainedFiresEveryCooldown | tools/reference_model/strategy_model.py:163-205 | a condition sustained from a candidate on fires again exactly at multiples of c |
| StrategyRules.SuppressedReversalStaysSilent | tools/reference_model/strategy_model.py:163-205 | a reversal whose edge falls inside the cooldown never fires while it is sustained |
| SignalEngine.SignalRegisters.Tick | fpga/rtl/strategy/signal_engine.sv:260-310 | one edge of the signal engine's registers |
| SignalEngine.DecisionIsModelled | fpga/rtl/strategy/signal_engine.sv:133-247 | for every configuration, memory and feature the hardware's record and next memory are the model's |
| SignalEngine.TickTracks | fpga/rtl/strategy/signal_engine.sv:249-310 | every edge keeps delivered and held records equal to the model's evaluations of the features taken |
| SignalEngine.DeliveredAreEvaluations | fpga/rtl/strategy/signal_engine.sv:133-310 | under any features, stalls, settings and slot resets, the records are the model's evaluations, in order and once each |
| SignalEngine.SymbolsAreIndependent | fpga/rtl/strategy/signal_engine.sv:284-308 | a symbol's memory and latest action are those of its own evaluations since it was cleared |
| StrategyConfig.ConfigBank.Tick | fpga/rtl/strategy/strategy_config.sv:94-152 | one edge of the configuration bank, and the status it shows before the edge; what the settings then are is ConfigMeaning.SettingsMean |
| StrategyConfig.BusyNeverAtHandshake | fpga/rtl/strategy/strategy_config.sv:75-92 | the busy status is shown exactly while the port is not ready, so no handshake ever returns it |
| StrategyConfig.RefusedChangesNothing | fpga/rtl/strategy/strategy_config.sv:73-92 | a refused command changes no setting |
| StrategyConfig.ThresholdRoundTrip | fpga/rtl/strategy/strategy_config.sv:121-138 | a threshold written in two's complement is the threshold compared with |
| ConfigMeaning.EdgeMeans | fpga/rtl/strategy/strategy_config.sv:94-152 | an accepted command sets its own setting to the value it carries, a slot reset sets none, and no edge touches any other setting |
| ConfigMeaning.SettingsMean | fpga/rtl/strategy/strategy_config.sv:73-152 | in every run from reset each of the three flags, seven thresholds and limits, the cooldown and each symbol's enable is the value carried by the last accepted command of its own code (and symbol), two's complement or bit by bit, or its default; the pending slot is the one last asked for; the status is busy, success or bad control accordingly |
| SlotReset.PendingBlocks | fpga/rtl/top/trading_spi_top.sv:173-175 | while a slot reset pends no event, feature or command is accepted |
| SlotReset.CompletionClearsBoth | fpga/rtl/top/trading_spi_top.sv:173-175 | the completing edge clears that slot and no other in both engines and loses no held record |
| SlotReset.ResetCompletesExactlyWhenYielding | fpga/rtl/market/market_state_engine.sv:382-384 | a pending reset completes, in one to three edges, if and only if the market engine is idle or is about to turn its event away |
| SlotReset.StuckForever | fpga/rtl/strategy/signal_engine.sv:249-250 | from every other state it never completes, whatever the inputs do |
| SlotReset.HeldFeatureIsNeverTaken | fpga/rtl/strategy/signal_engine.sv:249-250 | a held feature and a pending reset wait for each other for ever |
| SlotResetReach.WorkingNeverYields | fpga/rtl/market/market_state_engine.sv:382-384 | an engine with an accepted event in flight will not yield: the condition above fails until its feature is handed over |
| SlotResetReach.EveryPendingReset | fpga/rtl/top/trading_spi_top.sv:173-175 | at every point of every run from reset, a pending slot reset completes exactly under that condition |
| SlotResetReach.PendingInFlightNeverCompletes | fpga/rtl/top/trading_spi_top.sv:173-175 | in every run from reset, a slot reset found pending between the edge that takes an accepted event and the one that offers its feature never completes |
| EndToEnd.HandoverAgrees | fpga/rtl/top/trading_spi_top.sv:173-175 | on every edge the signal engine takes a feature exactly when the market engine hands one over |
| EndToEnd.SignalsAreModelled | fpga/rtl/top/trading_spi_top.sv:173-175 | from reset, under all events, commands and stalls, delivered records are the strategy model's evaluations of the market model's features |
| Crc8.BlockCrc | host/src/protocol.cpp:44-54 | the nested loop computes the block CRC, which CrcPolynomial.CrcIsRemainder characterises |
| Crc8.Crc8Engine.Tick | fpga/rtl/protocol/crc8_engine.sv:40-55 | one edge of the byte-stream engine, whose result CrcPolynomial.CrcIsRemainder characterises |
| Crc8.StreamIsBlock | fpga/rtl/protocol/crc8_engine.sv:20-55 | for any message length and pacing the engine reports the block CRC one edge after the last byte |
| Crc8.StepInjective | fpga/rtl/protocol/crc8_engine.sv:20-34 | the byte step is injective in the register and in the byte |
| Crc8.CrcParity | host/src/protocol.cpp:44-54 | the parity of the CRC is the parity of the message |
| CrcPolynomial.CrcIsRemainder | docs/spi_protocol.md:28 | for every message, the CRC is the one byte that makes message and byte together a carry-less multiple of x^8 + x^2 + x + 1 |
| CrcPolynomial.ValidIffDivisible | host/src/protocol.cpp:71-95 | so a frame of the right version is accepted exactly when its 256 bits are such a multiple |
| HostProtocol.Serialize | host/src/protocol.cpp:56-69 | in-place serialisation stores every field big-endian and the CRC last |
| HostProtocol.PutField | host/src/protocol.cpp:8-23 | a field is stored in place and no other byte changes |
| HostProtocol.GetField | host/src/protocol.cpp:25-40 | the shifting loop reads the big-endian value |
| HostProtocol.SerializeThenParse | host/src/protocol.cpp:86-95 | parsing a serialised packet returns it with its CRC filled in; only a wrong sync byte is an error |
| HostProtocol.ParseThenSerialize | host/src/protocol.cpp:56-95 | every valid packet is the serialisation of what it parses to |
| HostProtocol.OneByteCorruptionRejected | host/src/protocol.cpp:86-95 | a valid packet corrupted within one byte is rejected |
| HostProtocol.OddFlipsRejected | host/src/protocol.cpp:86-95 | a valid packet with an odd number of flipped bits is rejected |
| Dispatcher.PacketDispatcher.Tick | fpga/rtl/protocol/packet_dispatcher.sv:127-264 | one edge of the dispatcher and its CRC engine; where each field goes is HostView.ParsedRoute |
| Loopback.LoopbackEngine.Tick | fpga/rtl/protocol/loopback_engine.sv:109-212 | one edge of the loopback engine and its CRC engine |
| PacketPath.ClassifiedIsRouted | fpga/rtl/protocol/packet_dispatcher.sv:181-232 | classification agrees with the host parser's verdict, the message type and the symbol range |
| PacketPath.DispatchStep | fpga/rtl/protocol/packet_dispatcher.sv:158-262 | an edge of the dispatcher keeps its invariant and moves a packet only through a handshake |
| PacketPath.LoopStep | fpga/rtl/protocol/loopback_engine.sv:127-210 | an edge of the loopback engine keeps the response it owes until the consumer takes exactly that |
| PacketPath.EveryPacketLeavesOnce | fpga/rtl/protocol/packet_dispatcher.sv:158-262 | under any stalls every packet leaves exactly once and in order: dropped filler, event, control write then response, or response |
| PacketDrain.EdgeSpends | fpga/rtl/protocol/packet_dispatcher.sv:158-262 | unless it is idle, the path has strictly less to do after an edge with nothing offered and every consumer ready |
| PacketDrain.EverythingLeaves | fpga/rtl/protocol/loopback_engine.sv:127-210 | after any run, with nothing more offered and every consumer ready, everything taken has left as it should within 3568 edges |
| PacketPath.ResponseIsHostResponse | host/src/protocol.cpp:123-141 | for every status both sides define the response is the host's serialised status response to the request |
| PacketPath.ResponseParses | fpga/rtl/protocol/loopback_engine.sv:72-87 | every response is CRC-valid and echoes the request's symbol, timestamp, data, quantity and sequence |
| PacketPath.DropsOnlyZeros | fpga/rtl/protocol/packet_dispatcher.sv:158-180 | a packet is dropped if and only if its 32 bytes are zero |
| PacketPath.FlagsNameStatuses | fpga/rtl/protocol/loopback_engine.sv:91-107 | each status has a flag of its own: flag k for error 0xE0 + k, the first for success, the last for anything unknown |
| TradingCore.SameHandshake | fpga/rtl/top/trading_spi_top.sv:286-359 | each edge hands the market engine an event exactly when the dispatcher counts one as handed over, and the same one |
| TradingCore.PacketsBecomeSignals | fpga/rtl/top/trading_spi_top.sv:250-453 | from reset, for every stream of packets and every stall: responses, events and control writes are those of the packets routed, the market outcomes are the model's for exactly those events, the candidate records are the strategy model's evaluations of their features, and no control packet is answered busy |
| TradingCore.PulseIsExact | fpga/rtl/top/trading_spi_top.sv:382-401 | in the wired system the reject pulse is high exactly on the edge after one that turns an event away |
| TradingCore.CounterCountsRejections | fpga/rtl/top/trading_spi_top.sv:457-470 | in every run from reset the reject counter is the number of rejections emitted, short of one whose pulse is still high |
| HostView.ParsedRoute | fpga/rtl/protocol/packet_dispatcher.sv:181-232 | any frame reaches the event or control port exactly when the host's parser accepts it as a quote or trade of a known symbol, or a control packet, and each field arrives in its own place |
| HostView.HostRoute | fpga/rtl/protocol/packet_dispatcher.sv:207-226 | for every packet of the host the event has its kind, symbol, data as price, quantity, side and sequence, and the command its side as code, symbol, data and quantity |
| HostView.CoreIsTold | fpga/rtl/top/trading_spi_top.sv:250-453 | from power-up, for every stream of frames and stalls, in terms of the fields parsed: the events the market engine has taken, the commands the bank was given, that each was answered by whether it is a known one, and what every setting is |
| HostView.HostIsHeard | fpga/rtl/top/trading_spi_top.sv:250-453 | end to end from the host: when serialised packets have been routed, exactly their events and commands, field by field, reached the engine and the bank |
| CoreDeadlock.HostPacketsQualify | host/src/protocol.cpp:56-69 | every trade with a quantity, and every clear command, that the host serialises for a known symbol is such a packet |
| CoreDeadlock.ClearBehindTradeHangs | fpga/rtl/top/trading_spi_top.sv:173-175 | from power-up, any such trade with any such clear command right behind it hangs the core: a run that takes just these two packets, after which no event or command is ever handed over again on any input |
| PacketLink.LinkStep | fpga/rtl/top/trading_spi_top.sv:222-248 | every edge of either clock, coincident ones included, keeps the FIFOs and the core in step: packets delivered are packets taken, responses sent are responses accepted, none is refused |
| PacketLink.SpiPorts | fpga/rtl/top/trading_spi_top.sv:222-248 | on the SPI side a packet offered is accepted unless the receive FIFO is full, and a response is read exactly when asked for and there is one |
| PacketLink.ResponsesAnswerPackets | fpga/rtl/top/trading_spi_top.sv:222-453 | from reset, under every interleaving of the SPI and system clocks, the responses read are in order a prefix of those the packets written call for, and all of them once path and FIFOs are idle |
| CapacityQueue.SimulateDepth | tools/backtest/arrival.py:536-560 | the loop computes the specified queue and longest busy interval |
| CapacityQueue.CapacityState.Observe | tools/backtest/arrival.py:485-501 | the streaming update is one step of the same queue and busy interval |
| CapacityQueue.CeilingCountsUnfinished | tools/backtest/arrival.py:551 | the ceiling formula is the number of accepted jobs not finished at the arrival |
| CapacityQueue.OccupancyIsExact | tools/backtest/arrival.py:545-560 | for nondecreasing arrivals recorded occupancies are true counts, and accepted plus overflow is all arrivals |
| CapacityQueue.OccupancyWithinDepth | tools/backtest/arrival.py:551-560 | occupancy never exceeds the depth |
| CapacityQueue.ArriveKeepsCoupling | tools/backtest/arrival.py:485-501 | one arrival keeps the coupling: the deeper queue's workload is at least the shallower's and the gap at most the service time times the gap in accepted jobs |
| CapacityQueue.DeeperNeverRefusesMore | tools/backtest/arrival.py:156-169 | overflow is non-increasing in depth for every nondecreasing arrival sequence, the infinite queue included |
| CapacityQueue.PeriodsAreTheWork | tools/backtest/arrival.py:545-560 | the busy intervals of the explicit schedule are together exactly as long as the work accepted |
| CapacityQueue.PeriodsInOrder | tools/backtest/arrival.py:545-560 | the intervals follow one another without overlap |
| CapacityQueue.LongestBusyIsExact | tools/backtest/arrival.py:545-562 | for every trace and depth the reported interval is the longest of them, in whole nanoseconds |
| Execution.ExecutionSimulator.SubmitOrder | tools/backtest/execution_simulator.py:55-84 | submission fills at once on the event's own quote or queues the order |
| Execution.ExecutionSimulator.Quote | tools/backtest/execution_simulator.py:86-101 | the scan returns the fills and keeps the remaining orders in order |
| Execution.ExecutionSimulator.FlushOrders | tools/backtest/execution_simulator.py:103-109 | pending orders become unfilled |
| Execution.FillPriceIsAdverse | tools/backtest/execution_simulator.py:139-152 | buys fill at the ask or worse, sells at the bid or worse, never at zero |
| TradeMeaning.FillCosts | tools/backtest/execution_simulator.py:110-158 | a fill is at the visible price of the side it takes, worse by the fixed slippage and the greatest whole amount within the basis points, a sale never below one; the commission is the least amount covering charges and minimum, or nothing without charges |
| Execution.PendingAreWaiting | tools/backtest/execution_simulator.py:55-109 | pending orders are exactly those placed, not filled at once and not closed since, in submission order |
| Execution.FillsAtFirstUsableQuote | tools/backtest/execution_simulator.py:55-137 | every fill is at the first usable quote of its symbol at or after submission and order time plus latency |
| BacktestFills.ReplayPerformsItsOps | tools/backtest/pipeline.py:133-182 | at every point of every replay, pending orders and fills are, in order, those of the operations its items call for: each accepted quote is seen, then risk exits, then the candidate's orders are placed, and each session end forces exits and drops the rest |
| BacktestTiming.FillsAtFirstUsableQuotes | tools/backtest/pipeline.py:133-176 | over every replay each fill is made by the first accepted quote, from the event that issued its order on and in the same session, that is of its symbol, past latency and usable on the executed side, or is forced at a session end; every pending order has been passed over by every quote since its issue; pending orders stand in submission order |
| BacktestTiming.LastCloseFills | tools/backtest/pipeline.py:174-182 | the final close keeps the fills so far, adds only forced ones and leaves nothing pending |
| BacktestMeaning.EntriesFollowStrategy | tools/backtest/pipeline.py:99-182 | over every replay of market events, every entry filled was called for by the strategy at the event its order was issued at: in that direction, on that symbol |
| BacktestMeaning.SessionsStartAfresh | tools/backtest/pipeline.py:133-140 | with the reset on, what a session makes of its events does not depend on the sessions before it |
| BacktestMeaning.SessionsIgnored | tools/backtest/pipeline.py:133-140 | with the reset off, sessions make no difference to either model |
| Portfolio.PortfolioSimulator.Apply | tools/backtest/portfolio_simulator.py:187-260 | the loop over fills computes the specified account |
| Portfolio.PortfolioSimulator.Consider | tools/backtest/portfolio_simulator.py:62-127 | a candidate enters, exits, reverses or is ignored as specified |
| Portfolio.PortfolioSimulator.EvaluateRisk | tools/backtest/portfolio_simulator.py:134-154 | the sweep places the specified risk exits |
| Portfolio.PortfolioSimulator.Flatten | tools/backtest/portfolio_simulator.py:156-185 | the end-of-day sweep places and applies the specified exits, or raises |
| PortfolioAccounting.FillKeepsSound | tools/backtest/portfolio_simulator.py:187-260 | a fill of a matching order takes no ignored branch and keeps cash + open long notional + open entry costs = start + realised profit |
| TradeMeaning.RoundTrip | tools/backtest/portfolio_simulator.py:187-260 | an entry and an exit fill leave the positions as they were and record one trade of exactly those two prices, with its gross, costs and net; cash and realised profit move by the net |
| PortfolioAccounting.FillTracks | tools/backtest/portfolio_simulator.py:188-191 | applying a fill keeps pending marks, order numbers and positions matched with the outstanding orders |
| PortfolioAccounting.QuoteSplits | tools/backtest/execution_simulator.py:86-101 | a quote moves orders from pending to filled and loses none |
| PortfolioRules.SizeIsLargestWithin | tools/backtest/portfolio_simulator.py:411-416 | fixed-notional sizing buys the most whole shares within the notional, or one |
| TradeMeaning.CashFractionIsLargestWithin | tools/backtest/portfolio_simulator.py:411-416 | cash-fraction sizing buys the most whole shares within its share of cash, or one |
| TradeMeaning.EntryIffWithinLimits | tools/backtest/portfolio_simulator.py:301-338 | an entry into a flat symbol is ordered if and only if there is a price to enter at and filling it there would leave cash, exposure and number of positions within their limits; and what the order is |
| PortfolioRules.RiskExitsMeanMoney | tools/backtest/portfolio_simulator.py:388-409 | a stop fires exactly when closing at the quote loses at least its basis points of the entry notional, a target exactly when it gains its own |
| TradeMeaning.RiskExitsInOrder | tools/backtest/portfolio_simulator.py:388-409 | away from a quote of its own symbol only the holding limit closes a position, exactly when it has been held that long; without an exit price nothing does; otherwise stop, target and holding limit in that order |
| PortfolioRules.ImmediateEntryStaysWithinLimits | tools/backtest/portfolio_simulator.py:301-338 | an entry that fills at once without slippage leaves cash, exposure and position count within the limits |
| Portfolio.PortfolioSimulator.MarkToMarket | tools/backtest/portfolio_simulator.py:262-299 | one pass over the open positions yields the specified point: equity, realised and unrealised profit, gross and net exposure; high-water mark, drawdown and curve are updated and the account is not |
| TradeMeaning.UnrealizedIsOpenProfit | tools/backtest/portfolio_simulator.py:262-280 | only the position of the quote's own symbol has unrealised profit: shares times the price move to its exit side, bid for longs and ask for shorts, and nothing when that side has no price |
| TradeMeaning.MarkingIsClosing | tools/backtest/portfolio_simulator.py:262-299 | marking agrees with trading: the unrealised profit is the gross of the trade that closing there without slippage would record, and making it free of charge leaves the reported equity where it was |
| TradeMeaning.ExposureMeans | tools/backtest/portfolio_simulator.py:262-290 | net exposure is the cost of longs less that of shorts plus unrealised profit; gross exposure is what all cost, up by the profit of longs and down by that of shorts |
| PortfolioRules.DrawdownIsWorstFall | tools/backtest/portfolio_simulator.py:292-298 | after any marks the high-water mark is the highest equity recorded and the drawdown the worst fall from any recorded equity to a later one |
| PortfolioRules.ExposureExplainsEquity | tools/backtest/portfolio_simulator.py:262-290 | net exposure is within gross; with long positions only they agree and equity is cash plus exposure |
| PortfolioAccounting.EquityIdentity | tools/backtest/portfolio_simulator.py:262-299 | equity is starting cash plus realised and unrealised profit less open entry costs |
| PortfolioAccounting.FlatEquity | tools/backtest/portfolio_simulator.py:262-299 | when flat, equity is starting cash plus the net profit of all trades |
| PortfolioAccounting.ExactlyOneFate | tools/backtest/execution_simulator.py:50-109 | an issued order number is on exactly one filled, pending or unfilled order |
| BacktestReplay.PlacedKeeps | tools/backtest/portfolio_simulator.py:340-366 | placing an order keeps every invariant |
| BacktestReplay.CandidateKeeps | tools/backtest/portfolio_simulator.py:62-127 | considering a candidate keeps every invariant, reversals included |
| BacktestReplay.RiskKeeps | tools/backtest/portfolio_simulator.py:134-154 | the risk sweep keeps every invariant |
| BacktestReplay.ReplayKeepsBooks | tools/backtest/pipeline.py:133-176 | at every point of every replay: cash identity, one fate per order, pending marks exact, pending orders match positions, no fill ignored |
| BacktestReplay.FinishedReplay | tools/backtest/pipeline.py:174-182 | a finished replay has nothing pending, every order filled or unfilled once, and the equity identity |
| BacktestReplay.FlattenRaisesIffStranded | tools/backtest/portfolio_simulator.py:156-185 | flattening raises if and only if an open, unmarked position has no feature this session |
| BacktestReplay.ReplayRaisesIffStranded | tools/backtest/pipeline.py:133-182 | a replay raises exactly at a session end that flattens with such a position open |
| BacktestStranding.StrandingRaises | tools/backtest/pipeline.py:133-182 | six market events over two sessions, run through the market model and the default strategy, on which the replay raises |
| BacktestReplay.FlatAfterFlattenIff | tools/backtest/portfolio_simulator.py:156-185 | flattening closes a position if and only if it has no pending order and the exit side of its latest quote is usable |
| Backtest.BacktestEngine.Accept | tools/backtest/pipeline.py:147-172 | an accepted event is seen by the books, evaluated by the strategy object, and its candidate considered, in that order |
| Backtest.BacktestEngine.RunAll | tools/backtest/pipeline.py:99-182 | the event loop over the mutable market, strategy, portfolio and execution objects, models reset between sessions, runs the replay specification on the items both models make of the events |
| ForwardReturns.ForwardAccumulator.SeeQuote | tools/backtest/streaming.py:164-182 | the pop-and-retry loops compute the specified accumulator |
| ForwardReturns.ForwardAccumulator.SeeCandidate | tools/backtest/streaming.py:184-205 | a candidate pushes one measurement per horizon |
| ForwardReturns.FateIsFirstSettling | tools/backtest/forward_returns.py:60-66 | a measurement closes at the first later quote at or past its target with a positive exit price, and at no other |
| ForwardReturns.PopTakesSettled | tools/backtest/streaming.py:168-178 | a quote takes exactly the due entries it can settle out of the queue |
| ForwardReturns.ReturnIsMoney | tools/backtest/streaming.py:164-205 | a row's return is, in basis points of the outlay, the money a round trip makes from the latest quote before the candidate to the quote that settles it, negative exactly when it loses; there is none when that quote is missing, later than the candidate or without a price |
| ForwardReturns.StreamingEqualsScan | tools/backtest/streaming.py:164-213 | the finished rows are, as a multiset, those of the scan over later quotes |
| ForwardReturns.OneRowEach | tools/backtest/streaming.py:184-213 | there is one row per actionable candidate and horizon |
| Timestamp.DaysAreCounted | host/src/alpaca_message_parser.cpp:183-190 | the closed form is the day-by-day Gregorian count from 1970-01-01 |
| Timestamp.ParseTimestampNs | host/src/alpaca_message_parser.cpp:137-199 | the parser with its fraction loops computes the specified result |
| Timestamp.ParseIsInstant | host/src/alpaca_message_parser.cpp:137-199 | accepted text gives its instant in nanoseconds; overflow is thrown exactly above 2^64 - 1; everything else is an invalid argument |
| Timestamp.ParseKeepsOrder | host/src/alpaca_message_parser.cpp:137-199 | without leap seconds the value orders texts exactly as their calendar fields do |
| Timestamp.OrderLostIff | host/src/alpaca_message_parser.cpp:160-197 | an earlier valid reading fails to have the smaller value if and only if it is in second 60, the later is in second 0 of the next minute, and its fraction is no smaller |
| Timestamp.ParseOrderLostIff | host/src/alpaca_message_parser.cpp:137-199 | the same of accepted text |
| Timestamp.LeapSecondReverses | host/src/alpaca_message_parser.cpp:160-162 | 23:59:60.5 at the end of 2016 is read as later than 00:00:00.2 that follows it |

## Left out

- Asynchronous reset: every run starts from the reset state; a reset in mid-run and power-on timing are not modelled.
- Metastability beyond a sampled Gray pointer being the old code, the new code, or a bitwise mixture of the two.
- The bit-packed layout of the state bank and the block-RAM ports of the histories: a bank word is a record, and memories are sequences that an edge replaces, so aliasing cannot be expressed. History probes and the overflow of the 32-bit FIFO counters are not modelled.
- Event timestamps and flags inside the market engine, which ignores them; they are modelled up to the dispatcher's event port.
- The SPI shift registers, LEDs, heartbeat and the other error counters of the top level.
- MarketModel's packet decoding and `make_packet`; the packet codec is modelled from the host library.
- CapacityQueue.SimulateDepth: does not compute the mean, percentiles and maximum of the occupancies it returns, nor the final backlog, one subtraction from the time the server frees.
- CapacityQueue.CapacityState.Observe: keeps the occupancies themselves instead of a reservoir sample of them.
- Strategy: `set_symbol_enabled`, a one-field assignment.
- Metadata that orders, fills and trades copy (reason bits, score, sequence, feature, slippage cost), candidate logs.
- `flatten` with a single feature or without forced fills: the replay never calls it so.
- Backtest.BacktestEngine.RunAll: does not call `mark_to_market`, which is proved by itself and changes nothing the replay reads; an event comes with its session date; a custom `strategy_factory` is not modelled.
- Data quality, session filtering, sequence assignment and report summaries of the replay.
- ForwardReturns: the heap's array layout (a queue is a list in target order), and the batch analyser's different choice of entry price.
- JSON parsing, decimal conversion and every transport of the host program.
- Float rounding of cash, commissions and returns.
