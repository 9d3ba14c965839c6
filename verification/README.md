# Google congestion control: a verified model

The receiver-to-sender loop of Google Congestion Control (draft-ietf-rmcat-gcc-02), as
chrome_gcc builds it: what each part of the controller keeps over every run.

* `MinHistory`, `LossEstimator`, `LossAccounting`, `LossControl`, `LossHistory`: the send-side
  bandwidth estimator. Loss fractions in 256ths (section 6.4.1 of RFC 3550) move the
  target by the 2% / 10% rule (section 6 of the draft), starting from the minimum of a
  one-second window.
* `ReceiverLoss`, `ReceiverAccounting`: the receiver's two alternating receive windows,
  the timing that keeps their assertions true, and the conservation of packets.
* `InterArrival`, `LinearFit`, `Trendline`: grouping of packets (section 5.2), the
  least-squares slope, the overuse detector and its adaptive threshold (section 5.4).
* `LinkCapacity`, `Aimd`, `AimdOutcomes`, `DelayBwe`: the three-state rate controller
  (section 5.5) and the composition of the delay path.
* `BitrateEstimator`: the acknowledged bitrate.
* `Codec`, `Pacer`, `FeedbackLoop`: the wire format, the send gate, and the loss reports from
  the receiver's windows to the sender's fractions.
* `Units`, `Algebra`, `Sequences`, `NetworkState`: rounding, products of reals, joined sequences,
  and the detector's verdict.

Each component has its state as a datatype, a function for each operation, and a class
with the program's fields whose methods are proved to compute those functions. The theorems are
about runs of the functions. `Run` functions take the history of all inputs; what a run
should amount to (a list of samples, a partition of reports, groups of packets, sets of packet
numbers, streaks of observations) is defined on that history without the program's state.

Times are integer microseconds and rates integer bits per second, as in the program; its
infinities are `None`. Estimator values are reals. `pow(1.08, x)` and `sqrt` are
parameters: only 1 <= 1.08^x <= 1.08 for x in [0, 1], 1.08^1 = 1.08 and the defining property of
the root are used.

## Where the program and its evident intent differ

* A start-phase jump pushes the old target into the history and then raises the target. The
  next report without loss computes its increase from the old target, so it lowers the rate again,
  although its comment speaks of increasing. `LossControl.JumpThenLowLossLowers` is an example,
  `LossControl.LowLossLowersExactlyWhen` the exact condition.
* `receiver_loss_collection.cc:102` marks a packet that arrives out of order inside the window in
  effect, but in the waiting window. The model keeps this write.
  `ReceiverAccounting.RunFaultsExactlyWhen` says which packets no run can take
  (`ReceiverLoss.ReorderingFaults` is an example), `ReceiverLoss.ReorderingMarksAnotherPacket` what
  happens to the others, and `ReceiverAccounting.AlwaysBalancedExactlyWhen` on which runs the
  accounts are right all the same.
* A late packet whose number lies between two windows, or equals the last of the waiting one, fails
  the assertion at line 75 of the same file: one swap at the end of a window is enough
  (`ReceiverLoss.LatePacketFaults`).
* The overuse timer uses -1 for "idle". A time over the threshold can be -1 when a send
  difference is negative. `Trendline.BackwardDeltaIsMistaken` is a run that misses a signal,
  `Trendline.MistakenTimerExactly` and `Trendline.SignalsAsDefinedExactlyWhen` the exact conditions.
* The comment at `delay_based_bwe.cc:204` promises a cut by half every 200 ms; the code makes at
  most one in a run. `DelayBwe.SecondHalvingFails` is an example, `DelayBwe.HalvesExactlyWhen` the
  exact condition and `DelayBwe.HalvesOnlyOnce` its consequence.
* `number_to_fix_len_string` (`common/utils.cc:7-20`) writes a zero and then the terminator one
  character past the buffer it allocates, on every call. The model's buffer has room for it.
* The comment on `GetUpperLimit` in the header names the receiver's limit; the code leaves it
  out there and applies it in `target_rate`. The model follows the code.
* A number too large for its field is written as zeros, so it reads back as zero.

## Model

| member | source | states |
|---|---|---|
| MinHistory.PushRepresents | chrome_gcc/src/google_cc/send_side_bandwidth_estimation.cc:413-431 | sampling keeps the deque a faithful stand-in for the list of all samples taken since the last clear: strictly rising rates, times in order, nothing but samples; afterwards its front is the minimum over every sample still fresh |
| MinHistory.FrontIsMinimum | chrome_gcc/src/google_cc/send_side_bandwidth_estimation.cc:361-362 | whenever the front of the deque is fresh it is the smallest target of the last second |
| LossControl.HistoryRepresentsLog | chrome_gcc/src/google_cc/send_side_bandwidth_estimation.cc:182-190 | on every run with a monotone clock the deque represents the list, through both places that clear it |
| LossControl.StepRepresents | chrome_gcc/src/google_cc/send_side_bandwidth_estimation.cc:328-336 | one input of any kind keeps the deque representing the list; after an update without a jump the deque is not empty and its front is the window minimum |
| LossControl.IncreaseUsesWindowMinimum | chrome_gcc/src/google_cc/send_side_bandwidth_estimation.cc:361-369 | every low-loss update sets the target to the limited eight-percent increase of the minimum over the list of the last second |
| LossEstimator.SendSideBandwidthEstimation.UpdateMinHistory | chrome_gcc/src/google_cc/send_side_bandwidth_estimation.cc:413-431 | the two pop loops compute the specification of sampling and touch no other field |
| LossEstimator.SendSideBandwidthEstimation.UpdateEstimateAt | chrome_gcc/src/google_cc/send_side_bandwidth_estimation.cc:316-397 | the nested branches, in place, refine the update the theorems are about; the front of the deque always exists where it is read |
| LossEstimator.SendSideBandwidthEstimation.UpdatePacketsLostAt | chrome_gcc/src/google_cc/send_side_bandwidth_estimation.cc:248-280 | the accumulators and the flush, in place, refine the specification and keep fewer than twenty packets pending |
| LossEstimator.SendSideBandwidthEstimation.UpdateTargetBitrate | chrome_gcc/src/google_cc/send_side_bandwidth_estimation.cc:455-465 | the new target is the requested one within the limits, the minimum winning |
| LossEstimator.SendSideBandwidthEstimation.GetTargetRate | chrome_gcc/src/google_cc/send_side_bandwidth_estimation.cc:207-212 | the rate handed out is capped by the receiver's limit and never below the minimum |
| LossEstimator.SendSideBandwidthEstimation.SetBitratesAt | chrome_gcc/src/google_cc/send_side_bandwidth_estimation.cc:170-201 | new limits, and with a start rate a new target and an empty history |
| LossEstimator.SendSideBandwidthEstimation.UpdateReceiverEstimateAt | chrome_gcc/src/google_cc/send_side_bandwidth_estimation.cc:221-227 | a receiver limit of zero is none; the limits are applied at once |
| LossEstimator.SendSideBandwidthEstimation.UpdateDelayBasedEstimateAt | chrome_gcc/src/google_cc/send_side_bandwidth_estimation.cc:229-236 | a delay-based limit of zero is none; the limits are applied at once |
| LossEstimator.SendSideBandwidthEstimation.UpdateRttSample | chrome_gcc/src/google_cc/send_side_bandwidth_estimation.cc:305-309 | only a positive round-trip time is taken |
| LossEstimator.SendSideBandwidthEstimation.OnTransportLossReport | chrome_gcc/src/google_cc/goog_cc_network_control.cc:192-201 | the estimator sees lost packets out of received plus lost |
| LossEstimator.LossBands | chrome_gcc/src/google_cc/send_side_bandwidth_estimation.cc:345-372 | the 2% and 10% thresholds in 256ths: up to 5 increases, from 26 decreases |
| LossEstimator.IncreasedIsEightPercent | chrome_gcc/src/google_cc/send_side_bandwidth_estimation.cc:361-367 | an increase is 8 percent to the nearest bit per second, and 1000 |
| LossEstimator.ReducedBounds | chrome_gcc/src/google_cc/send_side_bandwidth_estimation.cc:381-387 | a loss-driven cut keeps at least 257/512 of the target and never raises it |
| LossEstimator.StepIsSane | chrome_gcc/src/google_cc/send_side_bandwidth_estimation.cc:255-275 | after any input the pending counts stay below twenty with lost at most expected |
| LossAccounting.CutIsPartition | chrome_gcc/src/google_cc/send_side_bandwidth_estimation.cc:255-266 | grouping reports by twenty packets is a partition in order, and every batch is minimal |
| LossAccounting.FractionsAreBatchRatios | chrome_gcc/src/google_cc/send_side_bandwidth_estimation.cc:255-275 | over every run the k-th fraction is min(255, 256 lost / total) of the k-th batch, and the accumulators hold exactly the unbatched reports |
| LossAccounting.EveryPacketIsCountedOnce | chrome_gcc/src/google_cc/send_side_bandwidth_estimation.cc:255-275 | lost and total packets of all reports are those of the batches plus the pending ones |
| LossControl.TargetIsCappedByWindow | chrome_gcc/src/google_cc/send_side_bandwidth_estimation.cc:336-369 | between jumps the target is at most one increase above every target sampled in the last second |
| LossControl.LowLossNeverLowers | chrome_gcc/src/google_cc/send_side_bandwidth_estimation.cc:350-369 | between jumps a low-loss update never lowers the target |
| LossControl.LowLossLowersExactlyWhen | chrome_gcc/src/google_cc/send_side_bandwidth_estimation.cc:350-369 | on every run a low-loss update lowers the target if and only if the target is above a changed limit or above one increase of a target of the last second |
| LossControl.JumpThenLowLossLowers | chrome_gcc/src/google_cc/send_side_bandwidth_estimation.cc:319-334 | a start-phase jump to the receiver's limit is undone by the next report without loss |
| LossControl.EstimateIsCapped | chrome_gcc/src/google_cc/send_side_bandwidth_estimation.cc:336-397 | the direction of every update: up on low loss, down to the cut target on high loss, unchanged otherwise |
| LossControl.RunIsCapped | chrome_gcc/src/google_cc/send_side_bandwidth_estimation.cc:336-397 | the invariant behind the cap holds along every run without jumps |
| LossControl.RunStaysWithinLimits | chrome_gcc/src/google_cc/send_side_bandwidth_estimation.cc:433-462 | on every run that sets a rate with every new range, the target is at least the minimum and at most the larger of minimum and upper limit |
| LossControl.RunIsPositive | chrome_gcc/src/google_cc/send_side_bandwidth_estimation.cc:455-462 | on every run target, minimum and every sample are at least 5 kbps, and the rate handed out obeys the receiver's limit |
| LossHistory.EveryUpdateExactly | chrome_gcc/src/google_cc/send_side_bandwidth_estimation.cc:316-397 | on every run, from batches, times and limits of the history, each completed batch or regular update sets the target to the highest limit in the start phase, to an increase of the window minimum after a fraction of at most 5, to f/512 less after a fraction f of at least 26 if the last cut is 300 ms and a round-trip time ago and answered another batch, and else leaves it; always within the limits, and only the cut is a decrease |
| LossHistory.DecisionsExactlyWhen | chrome_gcc/src/google_cc/send_side_bandwidth_estimation.cc:316-391 | on every run exactly when an update jumps, increases or decreases, in terms of the history |
| LossHistory.HighLossCutsAgain | chrome_gcc/src/google_cc/send_side_bandwidth_estimation.cc:374-391 | two batches of half loss ten seconds apart cut 500 kbps to 375 and then 281.25 |
| LossHistory.LimitsAreLatest | chrome_gcc/src/google_cc/send_side_bandwidth_estimation.cc:170-236 | on every run limits, range and round-trip time are the ones announced last, zero limits being none and a new rate forgetting the delay-based limit |
| LossHistory.HandedOutExactly | chrome_gcc/src/google_cc/send_side_bandwidth_estimation.cc:207-212 | on every run the rate handed out is the target or a lower limit of the receiver, and at least the minimum |
| LossHistory.OtherInputsExactly | chrome_gcc/src/google_cc/send_side_bandwidth_estimation.cc:170-236 | on every run every other input applies the new limits to the target, sets a new rate within them, or leaves it |
| LossControl.DecreasesAreSpaced | chrome_gcc/src/google_cc/send_side_bandwidth_estimation.cc:374-391 | on every run consecutive decreases are 300 ms plus the round-trip time apart, answer different fractions, and each answers a fraction of at least 26/256 |
| LossControl.TargetAfterDecreases | chrome_gcc/src/google_cc/send_side_bandwidth_estimation.cc:374-391 | while limits stay, whatever else happens, start-phase jumps included: n decreases leave at least n cuts of 255/512 of any floor under the target and under one increase of every sample |
| LossControl.InitialTargetDecays | chrome_gcc/src/google_cc/send_side_bandwidth_estimation.cc:374-391 | on every run from the start without new limits, the target after n decreases is at least (257/512)^n of 500 kbps, up to 512/255 |
| LossControl.DecayIsGeometric | chrome_gcc/src/google_cc/send_side_bandwidth_estimation.cc:381-387 | n such cuts leave at least (257/512)^n of the rate, up to 512/255 |
| LossControl.TargetAfterIncreases | chrome_gcc/src/google_cc/send_side_bandwidth_estimation.cc:336-369 | while limits stay and nothing is cut, n low-loss updates, each more than 999 ms after the one before, take the target to n increases of where it began or to the upper limit, and nothing between them takes it back |
| LossControl.InitialTargetGrows | chrome_gcc/src/google_cc/send_side_bandwidth_estimation.cc:336-369 | from the start, n such updates reach at least 1.08^n of 500 kbps, or the default limit |
| ReceiverLoss.StepIsSafe | chrome_gcc/src/google_cc/receiver_loss_collection.cc:62-153 | no assertion fails and no write is out of bounds on an admissible packet, and the timing invariant is kept |
| ReceiverLoss.FaultsExactlyWhen | chrome_gcc/src/google_cc/receiver_loss_collection.cc:74-104 | under the invariant that every surviving run keeps, exactly which packets break an assertion or a vector bound |
| ReceiverLoss.SurvivingStepStaysValid | chrome_gcc/src/google_cc/receiver_loss_collection.cc:62-153 | every packet the program takes, in order or not, keeps the timing invariant |
| ReceiverAccounting.RunFaultsExactlyWhen | chrome_gcc/src/google_cc/receiver_loss_collection.cc:74-104 | on every run with a monotone clock that has not faulted, the next packet faults if and only if it is late and outside the waiting window, or out of order in the window in effect with an index beyond what waits |
| ReceiverLoss.LatePacketFaults | chrome_gcc/src/google_cc/receiver_loss_collection.cc:74-75 | packets 1, 2, 4, 3, each arriving once, fail the assertion when 3 and 4 are swapped around the end of a window |
| ReceiverLoss.ReorderingMarksAnotherPacket | chrome_gcc/src/google_cc/receiver_loss_collection.cc:100-103 | a packet out of order inside the window in effect is never recorded and marks another number in the waiting window |
| ReceiverLoss.ReorderingFaults | chrome_gcc/src/google_cc/receiver_loss_collection.cc:100-103 | packets 1, 3, 2 already write outside the empty waiting window |
| ReceiverLoss.WaitingIsReportedInTime | chrome_gcc/src/google_cc/receiver_loss_collection.cc:110-137 | the first packet more than 390 ms after a waiting window began reports it |
| ReceiverLoss.ReportsExactlyWhen | chrome_gcc/src/google_cc/receiver_loss_collection.cc:110-137 | a packet the program takes yields a report if and only if a window waits and its 200 ms and waiting time are over; the report has its times and counts |
| ReceiverLoss.ClosesExactlyWhen | chrome_gcc/src/google_cc/receiver_loss_collection.cc:104-153 | a packet in order closes the window in effect if and only if it comes more than 200 ms after the first; the window then waits for the smoothed round-trip time within 100 and 190 ms |
| ReceiverLoss.SmoothedRttIsAverage | chrome_gcc/src/google_cc/receiver_loss_collection.cc:155-162 | the round-trip time is a weighted average of seven to one up to rounding |
| ReceiverAccounting.LegalRunsAreBalanced | chrome_gcc/src/google_cc/receiver_loss_collection.cc:62-153 | on every legal run nothing faults; reported, waiting and current windows are disjoint and in order, mark exactly the packets processed, and each report's counts add up to its window's length |
| ReceiverAccounting.BalanceIsKeptExactlyWhen | chrome_gcc/src/google_cc/receiver_loss_collection.cc:82-104 | a packet the program takes keeps the windows marking exactly the packets processed if and only if it is admissible, or a repetition whose alias in the waiting window had arrived as well |
| ReceiverAccounting.AlwaysBalancedExactlyWhen | chrome_gcc/src/google_cc/receiver_loss_collection.cc:62-153 | on every run with a monotone clock that has not faulted, the windows marked exactly the packets processed all along if and only if every packet was harmless in that sense |
| ReceiverAccounting.SurvivingRunIsTallied | chrome_gcc/src/google_cc/receiver_loss_collection.cc:62-153 | on every such run, harmless or not, windows are disjoint and in order and each report's counts add up to its window's length |
| ReceiverAccounting.ReportsAddUp | chrome_gcc/src/google_cc/receiver_loss_collection.cc:110-133 | on every harmless run received counts of reported and pending windows add up to the number of distinct packets processed |
| ReceiverLoss.ReceiverLossCollection.OnTransportPacketFeedback | chrome_gcc/src/google_cc/receiver_loss_collection.cc:62-73 | the two window objects, swapped in place, refine the step, with the program's asserts proved |
| ReceiverLoss.ReceiverLossCollection.UpdateEffect | chrome_gcc/src/google_cc/receiver_loss_collection.cc:82-108 | growing, marking and closing the window in effect, including the gap loop |
| ReceiverLoss.ReceiverLossCollection.UpdateWaiting | chrome_gcc/src/google_cc/receiver_loss_collection.cc:74-81 | a late packet is marked in the waiting window |
| ReceiverLoss.ReceiverLossCollection.GenerateReport | chrome_gcc/src/google_cc/receiver_loss_collection.cc:110-133 | the counting loop and the reset of a reported window |
| ReceiverLoss.ReceiverLossCollection.EndReceiveDuration | chrome_gcc/src/google_cc/receiver_loss_collection.cc:139-148 | the swap of roles |
| ReceiverLoss.ReceiverLossCollection.UpdateSmoothRtt | chrome_gcc/src/google_cc/receiver_loss_collection.cc:155-162 | the smoothed round-trip time in place |
| InterArrival.RunAgrees | chrome_gcc/src/google_cc/inter_arrival_delta.cc:30-94 | over every packet sequence since the last reset the accepted packets are grouped as by the batch definition, groups start more than a group length apart, the two remembered groups are the last two, and the emitted differences are theirs |
| InterArrival.GroupsAreByJoining | chrome_gcc/src/google_cc/inter_arrival_delta.cc:96-123 | the batch grouping is the one in which every packet joins its group by send time or burst and no group's first packet joins the group before |
| InterArrival.ResetsExactlyWhen | chrome_gcc/src/google_cc/inter_arrival_delta.cc:58-73 | on every run a packet resets the grouping if and only if it closes a group that arrived 3 s later than the clock says, or the third one in a row that arrived before its predecessor |
| InterArrival.EmitsExactlyWhen | chrome_gcc/src/google_cc/inter_arrival_delta.cc:49-76 | on every run a difference is emitted if and only if the packet closes a group that ended after the closed one before it, by less than the clock says and 3 s; it is the difference in latest send time, last arrival and bytes of these two |
| InterArrival.EveryPacketIsAccounted | chrome_gcc/src/google_cc/inter_arrival_delta.cc:30-94 | on every run, from the packets of the groups alone, which packets open the first group, are ignored, join, close the first group, start everything again, are discarded or yield a difference |
| InterArrival.ReorderedIsDiscarded | chrome_gcc/src/google_cc/inter_arrival_delta.cc:63-73 | the counter is the number of groups discarded in a row, always below three |
| InterArrival.EmittedTelescope | chrome_gcc/src/google_cc/inter_arrival_delta.cc:50-76 | emitted send, arrival and size differences add up to last closed group minus first closed group |
| InterArrival.GroupSizesAddUp | chrome_gcc/src/google_cc/inter_arrival_delta.cc:88-91 | the sizes of all groups add up to the bytes accepted |
| InterArrival.InterArrivalDelta.ComputeDeltas | chrome_gcc/src/google_cc/inter_arrival_delta.cc:30-94 | the in-place update refines the step and returns the difference exactly when one is emitted |
| InterArrival.InterArrivalDelta.Reset | chrome_gcc/src/google_cc/inter_arrival_delta.cc:125-129 | both groups and the counter are emptied |
| LinearFit.LinearFitSlope | chrome_gcc/src/google_cc/trendline_estimator.cc:36-59 | the two accumulation loops compute the centred quotient, or none |
| LinearFit.NoSlopeExactlyWhen | chrome_gcc/src/google_cc/trendline_estimator.cc:56-57 | there is no slope if and only if all arrival times are equal |
| LinearFit.SlopeMinimisesResidual | chrome_gcc/src/google_cc/trendline_estimator.cc:47-58 | no line has a smaller squared residual, and a line of another slope has a larger one |
| LinearFit.ResidualIsSquares | chrome_gcc/src/google_cc/trendline_estimator.cc:47-58 | the residual of any line is the best one plus two explicit squares |
| LinearFit.SlopeIsBetweenPairSlopes | chrome_gcc/src/google_cc/trendline_estimator.cc:47-58 | the slope lies between any bounds on the slopes through two points |
| LinearFit.OrderedDelaysDoNotFall | chrome_gcc/src/google_cc/trendline_estimator.cc:47-58 | delays ordered like their arrivals give a slope of at least zero |
| Trendline.VerdictExactlyWhen | chrome_gcc/src/google_cc/trendline_estimator.cc:210-247 | on every run the verdict is normal for the first sample; then underuse below the negative threshold, normal use between, and above the threshold overuse on a signal and otherwise the verdict before |
| Trendline.ObservationIsOfHistory | chrome_gcc/src/google_cc/trendline_estimator.cc:215-235 | on every run what is observed at a sample - above the threshold, signalled, trend - follows from the history of the samples |
| Trendline.TrendIsSlope | chrome_gcc/src/google_cc/trendline_estimator.cc:169-181 | on every run the trend is the slope of the last twenty points, or the trend before if there are fewer or no slope |
| Trendline.ModifiedIsScaledSlope | chrome_gcc/src/google_cc/trendline_estimator.cc:215-216 | on every run the trend is compared after scaling by 4 and the number of samples up to 60 |
| Trendline.SignalsExactlyWhen | chrome_gcc/src/google_cc/trendline_estimator.cc:218-235 | on every run overuse is signalled if and only if at least one sample before was above its threshold since the last other sample or signal, the time above, as the program takes it, exceeds 10 ms, and the trend did not fall |
| Trendline.SignalsAsDefinedExactlyWhen | chrome_gcc/src/google_cc/trendline_estimator.cc:218-235 | on every run the signal is the one the true time above asks for if and only if no slip of the timer moves a candidate's time across 10 ms |
| Trendline.TimerIsMeasuredTime | chrome_gcc/src/google_cc/trendline_estimator.cc:218-242 | on every run the timer is the time above the threshold in which a time of -1 counts as none |
| Trendline.MeasuredTimeSlips | chrome_gcc/src/google_cc/trendline_estimator.cc:218-242 | that time is the true one plus the slip: 1 ms less half the send difference for every sample that follows a time of -1 since the last other sample or signal |
| Trendline.CounterIsStreak | chrome_gcc/src/google_cc/trendline_estimator.cc:228-243 | on every run the counter is the length of the streak of samples above their thresholds |
| Trendline.MistakenTimerExactly | chrome_gcc/src/google_cc/trendline_estimator.cc:219-227 | when the time above equals the idle mark of -1, exactly which next samples put the timer right |
| Trendline.BackwardDeltaIsMistaken | chrome_gcc/src/google_cc/trendline_estimator.cc:219-223 | a first send difference of -2 ms makes the timer look idle |
| Trendline.ForwardDeltasAreNeverMistaken | chrome_gcc/src/google_cc/trendline_estimator.cc:219-227 | send differences that are not negative never do |
| Trendline.ThresholdStaysInRange | chrome_gcc/src/google_cc/trendline_estimator.cc:249-267 | on every run, whatever the clock does, the threshold stays within 6 and 600 |
| Trendline.ThresholdIsAdapted | chrome_gcc/src/google_cc/trendline_estimator.cc:249-267 | on every run the threshold is the one that starts at 12.5 and moves by 0.0087 up or 0.039 down of the distance, times the milliseconds up to 100, within 6 and 600, except on spikes of more than 15 |
| Trendline.EveryUpdateAdapts | chrome_gcc/src/google_cc/trendline_estimator.cc:249-267 | on every run with a monotone clock every update of the threshold obeys the bounds of UpdateAdapts |
| Trendline.UpdateAdapts | chrome_gcc/src/google_cc/trendline_estimator.cc:249-267 | one update rises by at most 0.0087 times 15 times the elapsed milliseconds up to 100, never past the trend, and not at all for a trend more than 15 above |
| Trendline.AccumulatedIsTotal | chrome_gcc/src/google_cc/trendline_estimator.cc:151 | the accumulated delay is the sum of all differences |
| Trendline.SmoothedIsAverage | chrome_gcc/src/google_cc/trendline_estimator.cc:152-153 | on every run the smoothed delay is nine tenths of the one before and a tenth of the accumulated delay |
| Trendline.WindowIsEndOfTimings | chrome_gcc/src/google_cc/trendline_estimator.cc:154-167 | the window is the last twenty of all points ever added |
| Trendline.SmoothedStaysAmongDelays | chrome_gcc/src/google_cc/trendline_estimator.cc:152-153 | the smoothed delay stays among the accumulated delays |
| Trendline.TrendlineEstimator.Update | chrome_gcc/src/google_cc/trendline_estimator.cc:139-188 | the in-place update of filter, window and trend refines the step |
| Trendline.TrendlineEstimator.DetectUsage | chrome_gcc/src/google_cc/trendline_estimator.cc:210-247 | the in-place detector refines the specification |
| Trendline.TrendlineEstimator.AdaptThreshold | chrome_gcc/src/google_cc/trendline_estimator.cc:249-267 | the in-place threshold update refines the specification |
| LinkCapacity.EstimateStaysAmongSamples | chrome_gcc/src/google_cc/link_capacity_estimator.cc:45-62 | on every run there is an estimate exactly when there are samples since the last reset, it stays within them, and the deviation stays within 0.4 and 2.5 |
| LinkCapacity.EstimateConverges | chrome_gcc/src/google_cc/link_capacity_estimator.cc:37-51 | n overuses at one throughput leave 0.95^n of the distance to it |
| LinkCapacity.BoundsEncloseEstimate | chrome_gcc/src/google_cc/link_capacity_estimator.cc:19-31 | lower bound, estimate and upper bound are in order |
| LinkCapacity.OveruseExactly | chrome_gcc/src/google_cc/link_capacity_estimator.cc:45-62 | an overuse takes the estimate a twentieth of the way to the sample, and the deviation a twentieth of the way to the squared rest over the estimate, within 0.4 and 2.5 |
| LinkCapacity.MarginIsThreeDeviations | chrome_gcc/src/google_cc/link_capacity_estimator.cc:19-31 | the bounds lie three standard deviations off the estimate, cut at zero below |
| LinkCapacity.LinkCapacityEstimator.UpdateWith | chrome_gcc/src/google_cc/link_capacity_estimator.cc:45-62 | the in-place update refines the specification |
| Aimd.StepStaysValid | chrome_gcc/src/google_cc/aimd_rate_control.cc:115-135 | between calls the state is never Decrease, Increase has a time of last change, and the rate is at least the minimum |
| Aimd.UpdateDirection | chrome_gcc/src/google_cc/aimd_rate_control.cc:187-297 | once there is an estimate overuse never raises it, normal use never lowers it, underuse leaves it |
| Aimd.RateStaysBelow | chrome_gcc/src/google_cc/aimd_rate_control.cc:204-242 | if throughputs never exceed a bound, no run takes an estimate above the larger of where it began, if there was one, and 1.5 times the bound plus 10 kbps; before the first estimate the caller asks for cuts only with a throughput |
| Aimd.StepStaysAbove | chrome_gcc/src/google_cc/aimd_rate_control.cc:247-291 | with throughputs of at least a low mark no event but a cut by half takes the rate below what a cut from that mark leaves |
| Aimd.StepKeepsDecrease | chrome_gcc/src/google_cc/aimd_rate_control.cc:141-149 | once there was a decrease there always was one |
| AimdOutcomes.NormalUseExactly | chrome_gcc/src/google_cc/aimd_rate_control.cc:204-242 | normal use adds eight percent a second and at least 1000, or a packet per response time if the capacity is known, up to half again the throughput and 10 kbps, and not above it; a capacity below the throughput is forgotten |
| AimdOutcomes.NearMaxIsPacket | chrome_gcc/src/google_cc/aimd_rate_control.cc:156-171 | that packet is the average of a frame of 1/30 s in packets of at most 1200 bytes, per round-trip time and 100 ms, and at least 4 kbps |
| AimdOutcomes.UnderuseExactly | chrome_gcc/src/google_cc/aimd_rate_control.cc:215-217 | underuse holds the rate and changes nothing else |
| AimdOutcomes.OveruseExactly | chrome_gcc/src/google_cc/aimd_rate_control.cc:247-291 | overuse cuts to 85 percent of the throughput, or of the capacity if the former is no cut, never up and never below the minimum, and feeds the capacity |
| AimdOutcomes.WaitingExactly | chrome_gcc/src/google_cc/aimd_rate_control.cc:115-135 | before there is an estimate, and without overuse, a throughput is only remembered |
| AimdOutcomes.InitializedExactlyWhen | chrome_gcc/src/google_cc/aimd_rate_control.cc:115-135 | on every run from the start there is an estimate if and only if there was a start rate, a cut, or a throughput more than five seconds after the first |
| AimdOutcomes.NormalUseGrows | chrome_gcc/src/google_cc/aimd_rate_control.cc:204-242 | normal feedback every second, with no capacity known, takes the rate to n growths of eight percent, or to the throughput limit |
| AimdOutcomes.NormalUseReaches | chrome_gcc/src/google_cc/aimd_rate_control.cc:204-242 | that is 1.08^n of where the rate began, but for 6.25 bits per second of rounding, or the throughput limit |
| AimdOutcomes.NormalUseCreeps | chrome_gcc/src/google_cc/aimd_rate_control.cc:204-242 | with or without a known capacity it adds at least 1000 every second up to the throughput limit |
| Aimd.IncreasesAreIncreases | chrome_gcc/src/google_cc/aimd_rate_control.cc:299-311 | a multiplicative increase is at least 1000 and at most 8 percent or 1000 |
| Aimd.AdditiveIncreaseIsSlow | chrome_gcc/src/google_cc/aimd_rate_control.cc:156-171 | the additive rate is at most one packet per 100 ms, and the average packet size is always defined |
| Aimd.AimdRateControl.UpdateTarget | chrome_gcc/src/google_cc/aimd_rate_control.cc:115-135 | the in-place update refines the step |
| Aimd.AimdRateControl.Change | chrome_gcc/src/google_cc/aimd_rate_control.cc:187-292 | the switch over the control state refines the specification |
| Aimd.AimdRateControl.ChangeControlState | chrome_gcc/src/google_cc/aimd_rate_control.cc:321-341 | the transition of the control state |
| Aimd.AimdRateControl.SetStartAndMinimum | chrome_gcc/src/google_cc/aimd_rate_control.cc:56-65 | start rate, then minimum, in the order of the only caller |
| Aimd.AimdRateControl.SetEstimateTo | chrome_gcc/src/google_cc/aimd_rate_control.cc:141-149 | a set estimate is clamped and counts as a decrease exactly when lower |
| DelayBwe.AccumulatedDelayIsOneWayDelay | chrome_gcc/src/google_cc/delay_based_bwe.cc:164-172 | over every run, since the grouping last started, the accumulated delay has changed by the one-way delay of the last closed group over the first, up to 1 ms per further group |
| DelayBwe.RoundingIsNear | chrome_gcc/src/common/unit_base.h:191-194 | rounding both differences to milliseconds changes their difference by at most one |
| DelayBwe.GroupingIsOfPackets | chrome_gcc/src/google_cc/delay_based_bwe.cc:114-163 | on every run of packets the groups are those of the packets since the last silence of two seconds, with a group length of 5 ms |
| DelayBwe.DetectorIsFedSamples | chrome_gcc/src/google_cc/delay_based_bwe.cc:164-172 | on every run of packets the detector is that of exactly the emitted differences since the last silence, in milliseconds, with the arrival of the closing packet |
| DelayBwe.DetectionIsOfAllPackets | chrome_gcc/src/google_cc/delay_based_bwe.cc:76-112 | on every run of feedback the verdict that drives the rate is that of the trendline estimator on all packets fed back |
| DelayBwe.RecoversExactlyWhen | chrome_gcc/src/google_cc/delay_based_bwe.cc:86-106 | underuse counts as recovered if and only if one of the packets turned it to normal use |
| DelayBwe.RateFollowsDetector | chrome_gcc/src/google_cc/delay_based_bwe.cc:182-231 | after every feedback the estimate has moved the way the detector says |
| DelayBwe.EstimateStaysBelow | chrome_gcc/src/google_cc/delay_based_bwe.cc:76-112 | on every run of feedback and settings with a monotone clock, acknowledged rates of at most a bound keep estimate and announced rates at most the larger of where an estimate began and 1.5 times the bound plus 10 kbps |
| DelayBwe.FirstEstimatesStayBelow | chrome_gcc/src/google_cc/delay_based_bwe.cc:76-112 | from the program's own start, whose rate of 30 Mbps is no estimate, only the measured rates count |
| DelayBwe.EstimateStaysAbove | chrome_gcc/src/google_cc/delay_based_bwe.cc:182-231 | acknowledged rates of at least a low mark keep the rate at half, or before any decrease at all, of the smaller of where it began and what a cut from that mark leaves |
| DelayBwe.FirstEstimatesStayAbove | chrome_gcc/src/google_cc/delay_based_bwe.cc:182-231 | the same from the program's own start |
| DelayBwe.FeedbackStaysBelow | chrome_gcc/src/google_cc/delay_based_bwe.cc:182-239 | one event keeps the bound, and a result marked updated carries the controller's rate |
| DelayBwe.FeedbackIsStep | chrome_gcc/src/google_cc/delay_based_bwe.cc:182-239 | a feedback asks the rate controller at most one thing, and before there is an estimate neither a cut by half nor a cut without a measured rate |
| DelayBwe.HalvesExactlyWhen | chrome_gcc/src/google_cc/delay_based_bwe.cc:202-212 | overuse without an acknowledged rate changes the rate if and only if there is an estimate above the minimum and no decrease came before; it is then half, or the minimum |
| DelayBwe.MeasuredCutExactlyWhen | chrome_gcc/src/google_cc/delay_based_bwe.cc:198-201 | overuse with an acknowledged rate cuts if and only if there was no change yet, or the last one is a round-trip time of 10 to 200 ms ago, or less than half of the estimate was acknowledged; the cut is 0.85 of that rate, or of the capacity, and is announced; else nothing changes |
| DelayBwe.OtherUseAnnounces | chrome_gcc/src/google_cc/delay_based_bwe.cc:213-221 | without overuse the controller is always updated, and its rate announced exactly once there is an estimate |
| DelayBwe.FeedbackRemembers | chrome_gcc/src/google_cc/delay_based_bwe.cc:182-231 | after every feedback verdict, last announced rate and past overuse are remembered, and recovery is reported exactly without overuse |
| DelayBwe.HalvesOnlyOnce | chrome_gcc/src/google_cc/delay_based_bwe.cc:202-212 | on every run, whatever comes between, such overuse lowers the rate at most once, and never after a decrease |
| DelayBwe.SecondHalvingFails | chrome_gcc/src/google_cc/delay_based_bwe.cc:202-212 | from the start: two measurements, a cut to half, and 300 ms later none |
| DelayBwe.DelayBasedBwe.OnRttUpdate | chrome_gcc/src/google_cc/delay_based_bwe.cc:241-243 | a new round-trip time changes only that of the rate controller |
| DelayBwe.DelayBasedBwe.SetStartAndMinimum | chrome_gcc/src/google_cc/delay_based_bwe.cc:259-267 | start rate and minimum reach the rate controller and change nothing else |
| DelayBwe.DelayBasedBwe.IncomingPacketFeedbackVector | chrome_gcc/src/google_cc/delay_based_bwe.cc:76-112 | the message handler refines the composition |
| DelayBwe.DelayBasedBwe.IncomingPacket | chrome_gcc/src/google_cc/delay_based_bwe.cc:114-174 | timeout, grouping and detection of one packet, with the objects replaced on a timeout |
| DelayBwe.DelayBasedBwe.MaybeUpdate | chrome_gcc/src/google_cc/delay_based_bwe.cc:182-231 | the choice of rate update refines the specification |
| BitrateEstimator.WindowStaysShort | chrome_gcc/src/google_cc/bitrate_estimator.cc:102-130 | the window stays below 500 ms, stays below 150 once it is, never grows while above, and a sample that is due has bytes |
| BitrateEstimator.ShortWindowStaysShort | chrome_gcc/src/google_cc/bitrate_estimator.cc:51-60 | along every run after the first estimate a window below 150 ms stays below |
| BitrateEstimator.RunIsConserved | chrome_gcc/src/google_cc/bitrate_estimator.cc:102-130 | on every run bytes fed are bytes sampled plus discarded plus pending, and the estimate stays among the samples |
| BitrateEstimator.AbsorbBounds | chrome_gcc/src/google_cc/bitrate_estimator.cc:80-98 | one sample moves the estimate strictly towards itself and not past, and the variance is at most that of the sample and at most the old plus five |
| BitrateEstimator.AbsorbIsBayesian | chrome_gcc/src/google_cc/bitrate_estimator.cc:74-98 | the estimate is the precision-weighted mean of the old one, whose variance grew by five, and the sample, whose deviation is ten times its relative distance |
| BitrateEstimator.WindowExactly | chrome_gcc/src/google_cc/bitrate_estimator.cc:102-130 | a packet completes a sample if and only if the window it continues is full by then; what the sample, the window and the sum are after that |
| BitrateEstimator.SampleIsBits | chrome_gcc/src/google_cc/bitrate_estimator.cc:120-123 | a sample in kilobits per second times its milliseconds is eight bits for every byte |
| BitrateEstimator.FirstSampleIsEstimate | chrome_gcc/src/google_cc/bitrate_estimator.cc:62-66 | on every run the first sample is the estimate, and the variance is 50 until the second |
| BitrateEstimator.TimeIsConserved | chrome_gcc/src/google_cc/bitrate_estimator.cc:102-130 | on every run without gaps the time passed is that of the samples and of the window |
| BitrateEstimator.BitrateEstimator.UpdateAt | chrome_gcc/src/google_cc/bitrate_estimator.cc:51-100 | the in-place update refines the step without dividing by zero |
| BitrateEstimator.BitrateEstimator.UpdateWindowAt | chrome_gcc/src/google_cc/bitrate_estimator.cc:102-130 | the in-place window refines the specification |
| Codec.NumberToFixLenString | chrome_gcc/src/common/utils.cc:6-24 | the digit buffer holds the number right-aligned among zeros, or only zeros if it does not fit |
| Codec.FieldRoundTrip | chrome_gcc/src/common/utils.cc:6-24 | a field reads back as written if it fits its width, and as zero otherwise |
| Codec.DecimalRoundTrip | chrome_gcc/src/common/utils.cc:11 | reading a decimal number inverts writing it |
| Codec.StoulReads | chrome_gcc/src/packet/packet_parser.cc:20-25 | reading a number takes spaces, one sign and digits, whatever follows; negative numbers count down from 2^64, and none or too large a one is an exception |
| Codec.DataRoundTrip | chrome_gcc/src/packet/packet_parser.cc:16-26 | a data packet reads back with its type, and unchanged if and only if its fields fit |
| Codec.ReportRoundTrip | chrome_gcc/src/packet/packet_parser.cc:28-40 | a receiver report reads back with its type, and unchanged if and only if its fields fit |
| Codec.RembRoundTrip | chrome_gcc/src/packet/packet_parser.cc:42-49 | a bandwidth packet reads back with its type, and unchanged if and only if it fits; a larger one reads as zero |
| Codec.TypesAreDistinct | chrome_gcc/src/packet/packet_parser.cc:11-49 | encodings of different types never coincide and another type's parser leaves its packet alone |
| Codec.SerializeData | chrome_gcc/src/packet/packet.cc:23-31 | an encoded data packet has 1471 characters |
| Codec.SerializeReport | chrome_gcc/src/packet/packet.cc:33-42 | an encoded receiver report has 52 characters |
| Codec.SerializeRemb | chrome_gcc/src/packet/packet.cc:44-50 | an encoded bandwidth packet has 12 characters |
| Codec.GccDataPacket.Serialize | chrome_gcc/src/packet/packet.cc:23-31 | the method writes the specified encoding |
| Codec.GccReportPacket.Serialize | chrome_gcc/src/packet/packet.cc:33-42 | the method writes the specified encoding |
| Codec.GccRembPacket.Serialize | chrome_gcc/src/packet/packet.cc:44-50 | the method writes the specified encoding |
| Codec.GccDataPacket.UnSerialize | chrome_gcc/src/packet/packet_parser.cc:16-26 | the method assigns the fields in order up to the first that cannot be read, and throws exactly when there is one |
| Codec.GccReportPacket.UnSerialize | chrome_gcc/src/packet/packet_parser.cc:28-40 | the method assigns the fields in order up to the first that cannot be read, and throws exactly when there is one |
| Codec.GccRembPacket.UnSerialize | chrome_gcc/src/packet/packet_parser.cc:42-49 | the method assigns the parsed field, or throws exactly when parsing fails |
| Pacer.PacerKeepsRate | chrome_gcc/src/sender.cc:66-89 | n packets sent at rates of at most r take more than n - 1 packet times at r |
| Pacer.PacerKeepsUp | chrome_gcc/src/sender.cc:66-89 | n packets sent promptly at rates of at least r take no longer than n - 1 packet times at r, but for twice the waiting time each |
| Pacer.IntervalIsTruncated | chrome_gcc/src/sender.cc:66-79 | the interval is the time of a packet of 1472 bytes at the rate, truncated to microseconds |
| Pacer.RateIsLatest | chrome_gcc/src/sender.cc:116-119 | on every run the pacing rate is the last target, at least 100 kbps, and 500 kbps before the first |
| Pacer.DeparturesAreSpaced | chrome_gcc/src/sender.cc:81-89 | consecutive departures are more than the interval of the earlier rate apart |
| Pacer.GateReopens | chrome_gcc/src/sender.cc:116-119 | since the rate is at least 100 kbps the gate is open again within 117761 microseconds |
| Pacer.Sender.IsTimeToSendNextPacket | chrome_gcc/src/sender.cc:81-89 | the gate in place, with its two clock reads |
| Pacer.Sender.SetNextSendTime | chrome_gcc/src/sender.cc:66-79 | the next time to send is one truncated packet interval after the second clock read |
| Pacer.Sender.OnRateChanged | chrome_gcc/src/sender.cc:116-119 | the pacing rate is floored at 100 kbps |
| FeedbackLoop.EveryReportedPacketIsCounted | chrome_gcc/src/sender.cc:123-134 | on every run the receiver survives, if all report packets arrive: the counts of the reported windows, in order and each once, are the batches of the loss fractions and the pending rest, each fraction is the ratio of its batch, and fewer than twenty packets are pending |
| FeedbackLoop.DeliveredIsSent | chrome_gcc/src/receiver.cc:123-131 | writing and reading a report delivers its counters |
| FeedbackLoop.AnnouncedIsEstimate | chrome_gcc/src/receiver.cc:105-121 | the sender reads the announced estimate, or zero if it does not fit its field |
| FeedbackLoop.PacingIsTarget | chrome_gcc/src/sender.cc:101-144 | on every run the pacer is set to the target handed out, at least 100 kbps |
| FeedbackLoop.PacingFollowsEstimate | chrome_gcc/src/sender.cc:101-144 | from one announced estimate to the next, on every run, the sender paces at most at it or at its minimum rates; only an estimate too large for its field lifts the limit |
| Units.DivRoundToNearest | chrome_gcc/src/common/unit_base.h:191-194 | the quotient is within half a divisor of the dividend, for either sign |
| Units.DivRoundPositiveToNearest | chrome_gcc/src/common/unit_base.h:187-190 | the quotient is within half a divisor of the dividend |
| Units.Clamp | chrome_gcc/src/common/unit_base.h:205-208 | the result is within the limits, and the value itself if that is |
| Units.ClampReal | chrome_gcc/src/common/utils.h:8-17 | the result is within the limits, and the value itself if that is |

## Left out

- IEEE rounding: estimator values are exact reals; only the truncations and roundings the program writes are kept. The single-precision literals 0.02, 0.1, 0.4 and 2.5 are taken as decimals, which changes no loss threshold.
- Integer overflow: times, rates and counters are unbounded; only the 64-bit range of parsed numbers is modelled.
- Infinite operands of the unit types other than unset times and absent limits, which are `None`.
- Sockets, buffers, clocks and logging: clock reads and received strings are inputs. `pause_at_func` is not modelled; an unknown packet type is taken as data, as after the pause.
- Codec.NumberToFixLenString: the buffer of the model has room for the terminator; the program's is one character shorter, and what the write past it does is not modelled.
- ReceiverLoss.ReceiverLossCollection.OnTransportPacketFeedback: one packet per message, as the receiver is wired; batches that produce several reports are not modelled. The `state` field of a window is never read and is omitted.
- Aimd.AdditiveIncreaseIsSlow: minimum and start rates of at least 5 kbps are assumed, as the only caller ensures.
- `last_decrease_`, the feedback interval and the expected bandwidth period of the rate controller, which feed nothing modelled here.
- ALR, audio separation, probing, sorting and capping in the trendline, the network state predictor, and `ExpectFastRateChange`: switched off or never called here.
- `OnRouteChange`, UMA metrics, event logging, `LinkCapacityTracker` and `RttBasedBackoff`: not called, or without effect on the modelled behaviour.
- glog, the optional type, the time and QUIC clock libraries, the scripts and the logs.
