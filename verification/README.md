# Robonix Go2 commissioning: models and proofs

The commissioning scripts of this repository decide when a robot may move, when a network is cut
over and restored, and which evidence is believed. This project models the ten scripts whose
substance is hardest to see from one function, and proves what their runs keep.

Every outside party is an arbitrary schedule: NetworkManager, the kernel, other processes, signals,
telemetry, listings and service answers may fail, time out, take effect anyway, or answer anything.
A contract therefore holds for every schedule. Ghost traces record each interaction, and the
run-level claims are predicates on traces.

| file | script | what is modelled |
|---|---|---|
| `OccupancyGrid.dfy`, `DistanceTransform.dfy` | `refine_initialpose_offline.py` | the exact distance transform: envelope of parabolas, two passes, the field in squared cells |
| `Angles.dfy`, `PoseScoring.dfy`, `PoseSearch.dfy` | `refine_initialpose_offline.py` | beam score, footprint, memoised grid and refinement search, acceptance |
| `RouteIsolation.dfy` | `nomotion_private_wifi_rollback.py` | policy rules and route tables, and longest-prefix lookup over them |
| `HostCommands.dfy`, `WifiRollback.dfy` | `nomotion_private_wifi_rollback.py` | the private Wi-Fi cutover, its signal latch and its rollback |
| `CancelAcceptance.dfy` | `observe_handsfree_cancel_readonly.py` | the cancellation tracker against the history of all three observers |
| `AtomicPublish.dfy` | `prepare_mapping_dirty_audit_receipt.py` | the no-replace publication under interference, failures and signals |
| `RtpsCorrelate.dfy` | `correlate_rtps_writer_locator.py` | PCAP, link, IPv4, UDP and RTPS walkers against encoders |
| `MotionProbe.dfy` | `first_motion_probe.py` | the motion probe: latched faults, graph ownership, runs, with its limits as parameters |
| `RouterAudit.dfy` | `nomotion_router_gateway_wifi_rollback.py` | the temporary router audit and its rollback |
| `ParameterTree.dfy`, `Stage1Params.dfy` | `render_staged_nav2_params.py` | nested parameters, changed paths, the stage-1 rendering |
| `PathSampling.dfy` | `prepare_staged_nav2_goal_evidence.py` | sampling of a planned polyline against a map |
| `OdomEvidence.dfy` | `observe_canonical_odom_stationary_readonly.py` | the odometry tracker and the verdict on its history |

`dafny verify dfyconfig.toml` checks everything.

## Findings

Some promises do not hold of the code on all inputs. In each case the code is modelled as it is,
a lemma gives a concrete input, and the exact condition is proved.

- The publication's documentation promises that a name taken over by somebody else is never
  removed. The cleanup keeps that, but the plain removal of the temporary name after the link does
  not look at what the name stands for: a run of 21 calls shows it
  (`AtomicPublish.TakenOverNameIsRemoved`), and a run removes a foreign name exactly there
  (`AtomicPublish.OnlyATakenOverNameIsRemoved`).
- A failed publication restores the directory exactly when no act stranded a name: a signal between
  an effect and the record of it, a failed first `fstat`, or a failed look or removal in the cleanup
  (`AtomicPublish.Publication.Publish`). A run with a failed first `fstat` shows it
  (`AtomicPublish.RefusedLookStrands`).
- Route isolation admits a bridge route that Python's `is_private` calls private although it holds
  public exceptions such as 192.0.0.9: a whole view shows it (`RouteIsolation.ExceptionIsRouted`).
  Isolated tables route nothing public exactly when no bridge route holds one
  (`RouteIsolation.PublicRoutedOnlyThroughExceptions`).
- The search extents do not bound the search. A step beyond its extent is tried once all the same.
  On each axis all poses asked for stay within reach, which is the extent plus the tolerance of
  rounding and refinement, exactly when the step fits: it is no longer than the extent, or its
  rounded length (in yaw, its representative around zero) is within reach
  (`PoseSearch.AskedWithinExactly`, with `XyFits` and `YawFits`). If it does not fit, an evaluated
  entry lies outside the extent (`PoseSearch.EntriesLeaveBox`); a search with a step of 1 m and an
  extent of 0.4 m shows it (`PoseSearch.LongStepSearch`), and a yaw step of 6.28 rad fits an extent
  of 0.2 rad (`PoseSearch.WholeTurnFits`).
- A clear pose outscores every unclear one exactly when one of the two penalties is at most one
  (`PoseScoring.ClearWinsExactly`); for every configuration beyond that there is a map with two
  poses in the wrong order (`PoseScoring.LargePenaltiesInvert`). The command line cannot set the
  penalties, so this concerns callers of the library.
- An external linear speed is written into the smoother as it is. It is within the rendered
  controller exactly when it is at most 0.30 m/s and at most both speeds of the document that goes
  in (`Stage1Params.SmootherRespectsController`); 0.5 m/s is not (`Stage1Params.ExternalSpeedCanExceed`).

## Modelling choices

- Floating-point numbers are exact reals or integer nanoseconds. Roots are avoided by comparing
  squares, and the number of path steps is the least that spans the squared distance. The field of
  the distance transform stays in squared cells. The 25 s bound of the cancellation is modelled with
  its rounding to six decimals.
- Cosine, sine and the likelihood of a distance are functions of which only the stated bounds are
  used; pi is a positive parameter and the normalised angle is its exact representative.
- The motion probe's clock moves on by at least one nanosecond with every spin, which is what makes
  its `while True` loop end.
- Inode numbers are not reused during a publication, the look and the removal of its cleanup are one
  step, and others leave the bytes, the mode and the number of names of the new private file alone
  apart from taking names away.
- Text that the standard library parses (addresses, networks) arrives as the parsed value beside its
  token; `is_private` is that of recent CPython with its exceptions.
- Parameter documents are trees. A mapping that a YAML alias shares between two places, which the
  script's copy keeps shared, is not expressible; there a change at one place is one at the other,
  and the final envelope check (`render_staged_nav2_params.py:412-416`) can fire.
- A velocity counts as published when it is handed to the publisher, also when that call raises.

## Model

| member | source | states |
|---|---|---|
| DistanceTransform.IntersectionSplits | scripts/refine_initialpose_offline.py:429-432 | left of the intersection of two parabolas the earlier one is strictly lower, at and right of it the later one is not higher |
| DistanceTransform.PopKeepsMin | scripts/refine_initialpose_offline.py:427-435 | a parabola that is popped never was below both its predecessor and the arriving one, so popping keeps the minimum everywhere |
| DistanceTransform.BuildEnvelope | scripts/refine_initialpose_offline.py:417-438 | the first sweep terminates and leaves the lower envelope of all parabolas on the stack, with fewer pops than the line is long |
| DistanceTransform.PopHidden | scripts/refine_initialpose_offline.py:426-434 | the pop loop stops above the bottom entry and every entry it drops was hidden |
| DistanceTransform.Edt1d | scripts/refine_initialpose_offline.py:414-445 | every output is exactly the least (q-p)^2 + values[p] over all p, and pops and forward moves together are fewer than twice the length |
| DistanceTransform.HullMin | scripts/refine_initialpose_offline.py:439-445 | between the boundaries of its entry the envelope's value is the minimum over all entries |
| DistanceTransform.PassesCompose | scripts/refine_initialpose_offline.py:448-474 | the column pass over row results with the far sentinel gives the least squared Euclidean distance to an occupied cell |
| DistanceTransform.OccupiedDistanceField | scripts/refine_initialpose_offline.py:448-474 | refuses exactly the maps without an occupied cell; otherwise the field is the reference distance field in squared cells |
| DistanceTransform.FieldZeroOnOccupied | scripts/refine_initialpose_offline.py:448-474 | the field is zero exactly on occupied cells and always below the far sentinel |
| DistanceTransform.FieldIsUnique | scripts/refine_initialpose_offline.py:448-474 | the reference determines the field: two fields of one map are equal |
| OccupancyGrid.GridMap.IndexIsCell | scripts/refine_initialpose_offline.py:58-65 | every index of the row-major occupancy data is one cell of the map |
| Angles.NormalizeRange | scripts/refine_initialpose_offline.py:161-162 | the normalised angle lies in the half-open interval from -pi to pi |
| Angles.NormalizeUnique | scripts/refine_initialpose_offline.py:161-162 | it is the only representative there, a whole number of turns away |
| Angles.NormalizeSmallest | scripts/refine_initialpose_offline.py:161-166 | no representative is nearer to zero, so an offset bounds the angular distance it causes |
| Angles.DistanceOfNormalized | scripts/refine_initialpose_offline.py:161-166 | normalising a yaw first does not change its angular distance to another |
| PoseScoring.FootprintIsClear | scripts/refine_initialpose_offline.py:497-512 | true exactly when the centre and both rings of samples lie in known free cells of the map |
| PoseScoring.ScorePose | scripts/refine_initialpose_offline.py:515-576 | refuses exactly the three malformed inputs; otherwise counts and score are those of the per-beam fold and the footprint rule |
| PoseScoring.CountsAreConserved | scripts/refine_initialpose_offline.py:536-558 | known, unknown and out-of-bounds beams add up to the beam count, hits and occupied endpoints are known, and occupied endpoints are hits unless the hit distance is negative, in which case there are no hits |
| PoseScoring.ClearScoreBounds | scripts/refine_initialpose_offline.py:536-559 | a clear pose scores between the worst and the best contribution of a single beam |
| PoseScoring.ClearOutscoresUnclear | scripts/refine_initialpose_offline.py:559-563 | any clear pose scores above any unclear one when one of the penalties is at most one, so for all negative penalties |
| PoseScoring.LargePenaltiesInvert | scripts/refine_initialpose_offline.py:559-563 | for every configuration with both penalties above one there is a map, two poses and a likelihood for which the pose inside the wall outscores the clear one |
| PoseScoring.ClearWinsExactly | scripts/refine_initialpose_offline.py:559-563 | a clear pose outscores an unclear one on all maps, fields, beams, poses and likelihoods exactly when the smaller penalty is at most one |
| PoseSearch.AxisOffsets | scripts/refine_initialpose_offline.py:579-583 | the ascending list of exactly the rounded multiples, the rounded extents and zero |
| PoseSearch.OffsetsStayInside | scripts/refine_initialpose_offline.py:579-583 | with a step no longer than the extent every offset is within the extent, up to 1e-9 of a step and half a unit of the twelfth decimal |
| PoseSearch.XyOffsetsFit | scripts/refine_initialpose_offline.py:579-583 | with a position step that fits the extent, even one beyond it, every offset of x and y stays within reach |
| PoseSearch.YawOffsetsFit | scripts/refine_initialpose_offline.py:579-583 | with a yaw step that fits, every yaw offset is a turn away from an angle within reach |
| PoseSearch.WholeTurnFits | scripts/refine_initialpose_offline.py:579-583 | a yaw step of 6.28 rad with an extent of 0.2 rad fits, when pi is 3.14 |
| PoseSearch.AskedWithinExactly | scripts/refine_initialpose_offline.py:633-668 | every pose that the search asks for is within reach in position exactly when the position step fits, and in yaw exactly when the yaw step fits |
| PoseSearch.EntriesLeaveBox | scripts/refine_initialpose_offline.py:620-668 | on an axis whose step fits all entries are within reach; on one whose step does not, some entry lies outside the search extent |
| PoseSearch.LongStepSearch | scripts/refine_initialpose_offline.py:602-769 | a concrete search with a step of 1 m and an extent of 0.4 m holds an entry more than 0.4 m away |
| PoseSearch.RoundHalfEven | scripts/refine_initialpose_offline.py:586-591 | the integer of a candidate key is within one half of the scaled coordinate |
| PoseSearch.BestWhere | scripts/refine_initialpose_offline.py:643-646 | the best clear entry of the memo that passes a filter: no kept entry outranks it, and none is returned only when none is kept |
| PoseSearch.Search.Evaluate | scripts/refine_initialpose_offline.py:620-627 | adds at most the key of the normalised pose, never changes an entry, and every entry stays the score of its own stored pose, within reach on each axis whose step fits |
| PoseSearch.Search.ShiftedInside | scripts/refine_initialpose_offline.py:633-642 | offsets of axes whose steps fit give a pose within reach of the initial one on those axes, also in yaw |
| PoseSearch.Search.Sweep | scripts/refine_initialpose_offline.py:633-642 | every combination of the three offset lists is asked for |
| PoseSearch.Search.Propose | scripts/refine_initialpose_offline.py:653-668 | every one of the 27 neighbours of the centre that lies in the search range is asked for |
| PoseSearch.Search.Level | scripts/refine_initialpose_offline.py:653-673 | a level asks for all neighbours of its best pose, and its new best is maximal over the grown memo and not ranked below the old one |
| PoseSearch.Search.Levels | scripts/refine_initialpose_offline.py:648-673 | every level explores around the best pose so far at half the step, and the best ranks never decrease |
| PoseSearch.Search.FindRival | scripts/refine_initialpose_offline.py:675-696 | the best distinct alternative decides whether the best pose leads every distinct clear pose by the unique margin |
| PoseSearch.Search.Run | scripts/refine_initialpose_offline.py:618-769 | the grid and all levels are asked for, the result is an error exactly without a clear entry, and the decision is the one for the best entry of the whole memo |
| PoseSearch.AcceptedPeak | scripts/refine_initialpose_offline.py:675-769 | acceptance means: maximal over all evaluated clear poses, ahead of every distinct one and of the manual pose by the margins, and interior |
| PoseSearch.RefusalMeans | scripts/refine_initialpose_offline.py:700-769 | what each refusal says: the best pose is where the search began, a rival is within the margin or there is none, every clear pose gains too little, or the best pose is interior and unrivalled but its own evidence too weak |
| PoseSearch.RefinePose | scripts/refine_initialpose_offline.py:602-769 | no search is made exactly for a refused configuration, beam set or map; otherwise an error means that no evaluated pose is clear, and a report is about the best evaluated pose and the final steps |
| RouteIsolation.ValidatePolicyRules | scripts/nomotion_private_wifi_rollback.py:655-682 | accepts exactly the complete baselines of policy rules of either family, each priority once |
| RouteIsolation.CheckRoutes4 | scripts/nomotion_private_wifi_rollback.py:764-842 | accepts exactly listings of acceptable IPv4 routes and counts the direct and link-local ones |
| RouteIsolation.CheckRoutes6 | scripts/nomotion_private_wifi_rollback.py:772-779 | accepts exactly listings whose routes are all known keys, none twice, and collects their keys |
| RouteIsolation.ValidateRouteIsolation | scripts/nomotion_private_wifi_rollback.py:757-853 | returns exactly when rules, IPv4 routes and IPv6 routes are those of an isolated private network |
| RouteIsolation.PrivateNetworkGoesDirect | scripts/nomotion_private_wifi_rollback.py:795-846 | after it returned, every address of 192.168.123.0/24 matches one unicast route only, the direct one on wlo1 without a gateway |
| RouteIsolation.OnlyDirectMatches | scripts/nomotion_private_wifi_rollback.py:834-846 | a unicast route that contains a private-network address is that direct route |
| RouteIsolation.NothingPublicIsRouted | scripts/nomotion_private_wifi_rollback.py:834-842 | an address outside the private blocks and their listed exceptions is contained in no unicast route |
| RouteIsolation.PublicRoutedOnlyThroughExceptions | scripts/nomotion_private_wifi_rollback.py:841-842 | an isolated table routes nothing public exactly when no bridge route holds one of the public exceptions inside a private block |
| RouteIsolation.ExceptionIsRouted | scripts/nomotion_private_wifi_rollback.py:841-842 | a whole concrete view (rules, both listings, no docker bridge) with a bridge route for 192.0.0.0/24 is isolated, and routes the public address 192.0.0.9 |
| RouteIsolation.KeyFixesTokens | scripts/nomotion_private_wifi_rollback.py:684-755 | apart from the docker address every IPv6 key stands for one exact route text |
| RouteIsolation.Ipv6ListingIsBaseline | scripts/nomotion_private_wifi_rollback.py:849-853 | the accepted IPv6 listings hold each required baseline route once and nothing else |
| HostCommands.SignalLatch.Capture | scripts/nomotion_private_wifi_rollback.py:139-153 | the first captured signal is kept |
| WifiRollback.PrivateWifiRollback.Run | scripts/nomotion_private_wifi_rollback.py:169-210 | a signal surfaces only between commands and never while deferred; a failing command is recorded with its request |
| WifiRollback.PrivateWifiRollback.Sample | scripts/nomotion_private_wifi_rollback.py:986-1044 | each stability sample is positive exactly when all of its readings succeeded and match; exceptions inside it do not escape |
| WifiRollback.PrivateWifiRollback.WaitForStable | scripts/nomotion_private_wifi_rollback.py:1046-1061 | returns true only at the end of four positive samples back to back, and only observes |
| WifiRollback.SamplesSeeNoOwner | scripts/nomotion_private_wifi_rollback.py:1000-1003 | four positive samples without a host owner end the trace with four listings that saw no owner |
| WifiRollback.PrivateWifiRollback.RecoveryRound | scripts/nomotion_private_wifi_rollback.py:1078-1121 | wired is activated only after the wlo1 requests were reconciled and four listings in a row saw no owner |
| WifiRollback.PrivateWifiRollback.FallBackToWired | scripts/nomotion_private_wifi_rollback.py:1123-1165 | ends with unique wired ownership observed four times, or with a wired deactivation as the last change |
| WifiRollback.PrivateWifiRollback.Rollback | scripts/nomotion_private_wifi_rollback.py:1071-1175 | runs at most once and without interruption; returns restored exactly with four fully restored samples at the end, else in the fallback's states; the newest wlo1 request is the campus one |
| WifiRollback.PrivateWifiRollback.ValidatePrivateState | scripts/nomotion_private_wifi_rollback.py:947-965 | returns only after the four readings that prove the private link and its isolated routing |
| WifiRollback.PrivateWifiRollback.Preflight | scripts/nomotion_private_wifi_rollback.py:855-895 | only observes, and sets the state exactly when it succeeds |
| WifiRollback.PrivateWifiRollback.Cutover | scripts/nomotion_private_wifi_rollback.py:1184-1207 | at most the wired deactivation and the target activation change connections; success means a validated cutover with every recheck good, ending at least the hold after the last ping |
| WifiRollback.JoinRun | scripts/nomotion_private_wifi_rollback.py:1177-1220 | nothing before the rollback activates the wire, so its rule extends over the whole run |
| WifiRollback.PrivateWifiRollback.Execute | scripts/nomotion_private_wifi_rollback.py:1177-1220 | no change before arming, exactly one rollback after it; normal return means a validated cutover, a rollback whose first request ended at least the hold after the last ping, proven restoration and no latched signal |
| WifiRollback.PrivateWifiRollback.Supervise | scripts/nomotion_private_wifi_rollback.py:1293-1322 | exit code 0 means a validated cutover held as long as asked and a restored topology; the code for an incomplete second rollback cannot occur |
| CancelAcceptance.ConnectionKnown | scripts/observe_handsfree_cancel_readonly.py:665-689 | the connection fields say which connection events are in the history |
| CancelAcceptance.GapsKnown | scripts/observe_handsfree_cancel_readonly.py:472-493 | the kept maximal gap is the largest gap between samples of an endpoint |
| CancelAcceptance.PlansKnown | scripts/observe_handsfree_cancel_readonly.py:625-649 | the plan issue counters are zero exactly when every plan sample of the run was available and zero |
| CancelAcceptance.ReadyKnown | scripts/observe_handsfree_cancel_readonly.py:1138-1175 | READY is announced at the first moment of the history at which all its conditions hold |
| CancelAcceptance.BoundaryKnown | scripts/observe_handsfree_cancel_readonly.py:551-566 | the disable boundary is the first enabled-to-disabled edge of the usable statuses |
| CancelAcceptance.PostStatusKnown | scripts/observe_handsfree_cancel_readonly.py:538-571 | the counters after the disable say whether a status after the edge was unavailable or enabled |
| CancelAcceptance.PostTranscriptKnown | scripts/observe_handsfree_cancel_readonly.py:567-576 | whether the transcript moved after the edge is a question about the statuses behind it |
| CancelAcceptance.FrozenIsBaseline | scripts/observe_handsfree_cancel_readonly.py:1138-1175 | the frozen transcript is that of the newest enabled status when READY was announced |
| CancelAcceptance.LateKnown | scripts/observe_handsfree_cancel_readonly.py:690-709 | the counted voice events after READY are those in the history |
| CancelAcceptance.RoundedWindow | scripts/observe_handsfree_cancel_readonly.py:744-754 | the rounded 25 s bound holds exactly from 25 s minus half a microsecond on |
| CancelAcceptance.VerdictIsAcceptance | scripts/observe_handsfree_cancel_readonly.py:408-838 | for every chronological interleaving the fields pass exactly on the histories of an accepted cancellation |
| CancelAcceptance.AcceptanceTracker.OnStatus | scripts/observe_handsfree_cancel_readonly.py:495-602 | a status poll changes the tracker as its history says |
| CancelAcceptance.AcceptanceTracker.OnPlans | scripts/observe_handsfree_cancel_readonly.py:604-657 | a plan poll changes the tracker as its history says |
| CancelAcceptance.AcceptanceTracker.OnMessage | scripts/observe_handsfree_cancel_readonly.py:659-723 | a socket message changes the tracker as its history says |
| CancelAcceptance.AcceptanceTracker.Summary | scripts/observe_handsfree_cancel_readonly.py:732-838 | no reason is given exactly when the observer was not interrupted and its history is an accepted one |
| AtomicPublish.OnlyATakenOverNameIsRemoved | scripts/prepare_mapping_dirty_audit_receipt.py:298-300 | a run removes a name of a foreign file exactly where its temporary name was taken over before the removal behind the link |
| AtomicPublish.TakenOverNameIsRemoved | scripts/prepare_mapping_dirty_audit_receipt.py:125-130 | a concrete run of 21 calls in the order of the script, in which others put their file under the temporary name behind the link and the removal takes that name away, contrary to the documented promise |
| AtomicPublish.RefusedLookStrands | scripts/prepare_mapping_dirty_audit_receipt.py:248-340 | a concrete undisturbed run in the order of the script, in which a refused first look at the fresh descriptor leaves the temporary name behind |
| AtomicPublish.ExistingTargetStays | scripts/prepare_mapping_dirty_audit_receipt.py:288-298 | the file that others put under the target name stays there until others change it |
| AtomicPublish.RestoredWithoutOurs | scripts/prepare_mapping_dirty_audit_receipt.py:307-322 | with the names of others unchanged, the directory is restored exactly when no name stands for the new file |
| AtomicPublish.OthersNeverExpose | scripts/prepare_mapping_dirty_audit_receipt.py:123-130 | what others do to names never makes the target name a part of the file |
| AtomicPublish.Publication.Step | scripts/prepare_mapping_dirty_audit_receipt.py:115-340 | one system call with interference before it; every recorded call respects the files of others and never exposes a part |
| AtomicPublish.Publication.CreateTemp | scripts/prepare_mapping_dirty_audit_receipt.py:248-260 | one exclusive creation under at most 32 names; on failure a name is stranded exactly when one is left behind |
| AtomicPublish.Publication.WritePayload | scripts/prepare_mapping_dirty_audit_receipt.py:262-268 | after any pattern of short writes the file holds exactly the payload, or the run fails |
| AtomicPublish.Publication.InspectPrivate | scripts/prepare_mapping_dirty_audit_receipt.py:200-226 | returns only if at one moment the file had this one name, mode 0600, the right owner and exactly the payload |
| AtomicPublish.Publication.ReadBack | scripts/prepare_mapping_dirty_audit_receipt.py:214-221 | whatever the chunks, the bytes read equal the payload exactly when the file holds it |
| AtomicPublish.Publication.LinkTarget | scripts/prepare_mapping_dirty_audit_receipt.py:288-298 | the target is linked only when absent, and only to the complete file or to what replaced the temporary name |
| AtomicPublish.Publication.UnlinkOurs | scripts/prepare_mapping_dirty_audit_receipt.py:171-185 | removes a name only while it stands for the new file, and strands it exactly when a look or removal failed |
| AtomicPublish.Publication.Publish | scripts/prepare_mapping_dirty_audit_receipt.py:115-340 | in every run no part is ever exposed and no existing target rebound; return means the target was the whole private file under one name; without interference a failed run restored the directory exactly when no act stranded a name |
| RtpsCorrelate.RtpsDataWriterIds | scripts/correlate_rtps_writer_locator.py:161-190 | returns the writers met by following the submessage headers |
| RtpsCorrelate.MessageRoundTrip | scripts/correlate_rtps_writer_locator.py:161-190 | on any encoded message, of mixed byte orders and with an open last length, the writers of its data submessages in order |
| RtpsCorrelate.TruncationKeepsPrefix | scripts/correlate_rtps_writer_locator.py:178-190 | for every payload and every cut, the result is a prefix of the result for the whole |
| RtpsCorrelate.Ipv4Payload | scripts/correlate_rtps_writer_locator.py:98-131 | the payload behind each supported link header |
| RtpsCorrelate.LinkRoundTrip | scripts/correlate_rtps_writer_locator.py:98-131 | every link layer, with any number of VLAN tags, gives its payload back |
| RtpsCorrelate.PacketRoundTrip | scripts/correlate_rtps_writer_locator.py:134-158 | an encoded unfragmented packet, with options and padding, gives its datagram back |
| RtpsCorrelate.CutDatagram | scripts/correlate_rtps_writer_locator.py:134-158 | a cut packet gives the same endpoints and a prefix of the payload, or nothing |
| RtpsCorrelate.IterPcapPackets | scripts/correlate_rtps_writer_locator.py:46-95 | reads a file record by record, with the error of the first bad record |
| RtpsCorrelate.CaptureRoundTrip | scripts/correlate_rtps_writer_locator.py:46-95 | a written capture of either byte order gives its link type and frames back |
| RtpsCorrelate.ReadableIsEncoded | scripts/correlate_rtps_writer_locator.py:46-95 | nothing else is accepted: a readable file is the encoding of the capture read from it |
| RtpsCorrelate.GidRoundTrip | scripts/correlate_rtps_writer_locator.py:32-43 | however at least sixteen bytes are spelled, they are read as prefix, entity and GID |
| RtpsCorrelate.Correlate | scripts/correlate_rtps_writer_locator.py:193-255 | counters, examples, proven sources and conclusion are those of the frames; a single source is concluded exactly when one is proven |
| RtpsCorrelate.WriterCountsAreBounded | scripts/correlate_rtps_writer_locator.py:215-224 | per source the writer count never exceeds the prefix count |
| RtpsCorrelate.CutCaptureReportsLess | scripts/correlate_rtps_writer_locator.py:178-224 | a capture whose frames were cut short counts at most as many packets per source as the whole one |
| RtpsCorrelate.ProvenExactly | scripts/correlate_rtps_writer_locator.py:193-236 | in a written capture of mixed traffic a source is counted for the writer, or for the participant, exactly when a frame carries its data, or its message |
| RtpsCorrelate.ForeignIsUnseen | scripts/correlate_rtps_writer_locator.py:98-158 | frames of other link types, protocols, fragments and UDP payloads are never taken for a participant's |
| RtpsCorrelate.CorrelateWritten | scripts/correlate_rtps_writer_locator.py:193-255 | for any written capture of mixed traffic and any spelling of a GID, the proven set is exactly the sources that sent data of that writer, and the conclusion follows from its size |
| MotionProbe.BindAdded | scripts/first_motion_probe.py:361-386 | binds a writer exactly when the writers are the baseline and that one, which is the one bound before if any |
| MotionProbe.EveryMoveIsJustified | scripts/first_motion_probe.py:1296-1314 | each non-zero velocity follows a passed health check and a decision within both soft limits, armed, with a passed graph check less than a period old |
| MotionProbe.NoMotionAfterwards | scripts/first_motion_probe.py:681-683 | once a fault has latched or the motion has ended, no further non-zero velocity is published |
| MotionProbe.OneMarker | scripts/first_motion_probe.py:685-729 | while nothing is latched every state message carried the one bound marker |
| MotionProbe.SameWritersThroughout | scripts/first_motion_probe.py:920-968 | all passed graph checks of a run saw the same writers |
| MotionProbe.AcceptedMoved | scripts/first_motion_probe.py:434-484 | the measured components are those of the distance, so an accepted course covers the acceptance floor |
| MotionProbe.FirstMotionProbe.OnState | scripts/first_motion_probe.py:685-729 | a state message changes the node as the model of its fields says, latching included |
| MotionProbe.FirstMotionProbe.OnOdom | scripts/first_motion_probe.py:731-786 | an odometry message is accepted or latches a stopped stamp |
| MotionProbe.FirstMotionProbe.CheckRuntime | scripts/first_motion_probe.py:1032-1054 | passing means telemetry is healthy now and a passed graph check is less than one period old |
| MotionProbe.FirstMotionProbe.MayMove | scripts/first_motion_probe.py:1296-1312 | allows a velocity only when it is justified by the trace, and refuses only outside the limits |
| MotionProbe.FirstMotionProbe.MotionLoop | scripts/first_motion_probe.py:1296-1314 | terminates and publishes only justified velocities |
| MotionProbe.FirstMotionProbe.VerifyPostStop | scripts/first_motion_probe.py:1098-1161 | success means the required samples, and that from the first to the last event of the watch every message left the node disarmed, faultless and within the rest limits of the pose at its start, every check passed and only zero was published; the watch lasts a second unless the client library dies in it |
| MotionProbe.FirstMotionProbe.Run | scripts/first_motion_probe.py:1196-1409 | every run is safe and leaves zero as the newest velocity while the client library lives; it passes only after an accepted course, and with the robot at rest ever since the acknowledged disarm where it then stood |
| RouterAudit.PreexistingUntouched | scripts/nomotion_router_gateway_wifi_rollback.py:781-850 | in a safe run no modify, down or delete request names a profile of the preflight set, and of that set only the campus profile is asked up |
| RouterAudit.Newcomers | scripts/nomotion_router_gateway_wifi_rollback.py:373-381 | exactly the listed profiles outside the preflight set, each once |
| RouterAudit.AnotherSample | scripts/nomotion_router_gateway_wifi_rollback.py:767-779 | a restored sample behind others extends the row |
| RouterAudit.RouterGatewayAudit.Run | scripts/nomotion_router_gateway_wifi_rollback.py:98-126 | only allowed requests are made; a signal surfaces before or after a command, a timeout is reported first |
| RouterAudit.RouterGatewayAudit.RecoverAuditUuid | scripts/nomotion_router_gateway_wifi_rollback.py:367-388 | the recorded clone while it is listed, else the only newcomer that bears its name; none means that every newcomer was read and bears another name |
| RouterAudit.RouterGatewayAudit.CampusRestoredSample | scripts/nomotion_router_gateway_wifi_rollback.py:730-765 | positive only with campus identity, addresses, default route and DNS as in the snapshot, no profile of the audit left, and the saved profile as before |
| RouterAudit.RouterGatewayAudit.WaitForCampusStability | scripts/nomotion_router_gateway_wifi_rollback.py:767-779 | true only behind four restored samples in a row |
| RouterAudit.RouterGatewayAudit.CreateAuditProfile | scripts/nomotion_router_gateway_wifi_rollback.py:407-497 | clones only directly behind a listing equal to that of the preflight, and success means that the clone is recorded |
| RouterAudit.RouterGatewayAudit.Rollback | scripts/nomotion_router_gateway_wifi_rollback.py:781-850 | returns exactly with four restored samples in a row; the campus profile is the last one asked up; no signal surfaces |
| RouterAudit.RouterGatewayAudit.Preflight | scripts/nomotion_router_gateway_wifi_rollback.py:299-365 | only reads, and takes the snapshot from what was read |
| RouterAudit.RouterGatewayAudit.ValidateReachability | scripts/nomotion_router_gateway_wifi_rollback.py:517-696 | success means the readings that prove owner and router, an answered warm-up and a lossless check of each target host in order, and a clean probe |
| RouterAudit.RouterGatewayAudit.Hold | scripts/nomotion_router_gateway_wifi_rollback.py:860-865 | holds for the whole time, and every recheck proves owner and router again |
| RouterAudit.RouterGatewayAudit.Execute | scripts/nomotion_router_gateway_wifi_rollback.py:852-876 | one rollback after arming and none before; every armed run spares the profiles of the preflight; normal return means the trace is the snapshot, the set-up, a proof of the router link, rechecks for the whole hold, a second proof, then a proven restoration, with no latched signal |
| RouterAudit.RouterGatewayAudit.Supervise | scripts/nomotion_router_gateway_wifi_rollback.py:921-943 | exit code 0 means the router link was proven, held and proven again and everything restored; no armed run touches a profile of the preflight; the code for an incomplete second rollback cannot occur |
| ParameterTree.NoChangeIsEqual | scripts/render_staged_nav2_params.py:142-157 | the changed paths are empty exactly on equal documents |
| ParameterTree.AgreeElsewhere | scripts/render_staged_nav2_params.py:142-157 | two documents agree at every path at or above which no changed path lies |
| ParameterTree.SameButChangesOnly | scripts/render_staged_nav2_params.py:142-157 | documents that differ only in leaves at given paths have changed paths only among these |
| ParameterTree.PutElsewhere | scripts/render_staged_nav2_params.py:126-139 | replacing one entry is not seen at paths that lead elsewhere |
| Stage1Params.RenderingIsUnique | scripts/render_staged_nav2_params.py:378-417 | a document has one rendering |
| Stage1Params.RenderingIsIdempotent | scripts/render_staged_nav2_params.py:378-417 | rendering a rendered document gives it back unchanged |
| Stage1Params.RenderedIsRenderable | scripts/render_staged_nav2_params.py:378-417 | a rendered document is never refused |
| Stage1Params.SmootherRespectsController | scripts/render_staged_nav2_params.py:248-375 | the rendered smoother stays within the rendered controller; an external linear speed does exactly when it is at most the stage limit and both speeds of the document that goes in |
| Stage1Params.ExternalSpeedCanExceed | scripts/render_staged_nav2_params.py:338-340 | a concrete document renders with an external speed of 0.5 m/s, and every rendering of it exceeds the controller |
| Stage1Params.Rendering.TightenPositiveLimit | scripts/render_staged_nav2_params.py:214-224 | caps a non-negative number and changes nothing else, or refuses and changes nothing |
| Stage1Params.Rendering.TightenNegativeMagnitudeLimit | scripts/render_staged_nav2_params.py:227-237 | caps the magnitude of a non-positive number and changes nothing else, or refuses and changes nothing |
| Stage1Params.Rendering.TightenControllerRelationships | scripts/render_staged_nav2_params.py:248-263 | bounds the planar speed and the least turning speed by the rendered maxima |
| Stage1Params.Rendering.TightenSmootherVectors | scripts/render_staged_nav2_params.py:266-375 | writes the four vectors, or names the first that is refused |
| Stage1Params.RenderStage1Params | scripts/render_staged_nav2_params.py:378-417 | renders exactly the acceptable documents, gives every setting its new value and keeps everything else; on documents without shared mappings the final envelope check never fires |
| PathSampling.Subdivisions | scripts/prepare_staged_nav2_goal_evidence.py:249-254 | the least number of steps, at least one, of which none is longer than half a cell |
| PathSampling.SamplePath | scripts/prepare_staged_nav2_goal_evidence.py:248-262 | the start and all step ends of all segments, in order |
| PathSampling.VerticesAreSampled | scripts/prepare_staged_nav2_goal_evidence.py:248-262 | every vertex of the path is a sample |
| PathSampling.StepsAreShort | scripts/prepare_staged_nav2_goal_evidence.py:248-262 | samples in a row are at most half a cell apart |
| PathSampling.PolylineIsCovered | scripts/prepare_staged_nav2_goal_evidence.py:248-262 | every point of the polyline is within half a step of a sample |
| PathSampling.NearPointsAreAdjacent | scripts/prepare_staged_nav2_goal_evidence.py:265-270 | points within a quarter of a cell lie in the same or in touching cells, however the map is turned |
| PathSampling.ValidatePathAgainstMap | scripts/prepare_staged_nav2_goal_evidence.py:228-284 | accepts exactly when frame, dimensions and data fit and every sample is in a known free cell; otherwise it names the first that is not, and why |
| PathSampling.AcceptedPathIsNearFreeCells | scripts/prepare_staged_nav2_goal_evidence.py:228-284 | acceptance puts every point of the polyline within a quarter cell of a checked free sample, in its cell or a touching one |
| OdomEvidence.CanonicalOdomTracker.CheckStamp | scripts/observe_canonical_odom_stationary_readonly.py:407-430 | no reason exactly for a valid stamp that is newer than the last good one and within the age limits |
| OdomEvidence.CanonicalOdomTracker.Observe | scripts/observe_canonical_odom_stationary_readonly.py:351-493 | a message is retained exactly when nothing is wrong with it; samples, gaps and counters stay consistent with the history |
| OdomEvidence.GapsAddUp | scripts/observe_canonical_odom_stationary_readonly.py:479-489 | the receipt gaps add up to the span |
| OdomEvidence.Maximum | scripts/observe_canonical_odom_stationary_readonly.py:217-243 | the largest gap, or none |
| OdomEvidence.ObserverVerdict | scripts/observe_canonical_odom_stationary_readonly.py:697-758 | valid exactly when the run ended by its duration without errors and the whole history is sound, increasing, close enough and long enough |
| OdomEvidence.MomentsAreCovered | scripts/observe_canonical_odom_stationary_readonly.py:699-758 | every moment from the first receipt to the end is at most the threshold behind a receipt |
| OdomEvidence.ValidMeansCovered | scripts/observe_canonical_odom_stationary_readonly.py:699-758 | a valid run's first receipt is within two thresholds and the overrun of the start, the last within one of the end, and the gaps are within the threshold and add up |

## Left out

- ROS, DDS, gRPC, WebSocket, HTTP, subprocesses and files: they are the schedules above.
- JSON and YAML text, command lines, printed lines, hashes, timestamps as text and the layout of evidence files.
- Floating-point rounding, except where it decides the 25 s bound; `atan2`, `exp` and `hypot` themselves.
- `AtomicPublish`: resolving the parent path, and the descriptors after they are closed, because they do not touch the directory.
- `AtomicPublish.Publication.Publish`: the validator is a call that returns or raises, because its checks live in other code.
- `CancelAcceptance`: counters that only appear in the evidence (sample totals, the largest plan count, UTC texts).
- `CancelAcceptance`: trimming and lower-casing of event kinds outside ASCII.
- `DistanceTransform.OccupiedDistanceField`: the final root and the multiplication by the resolution, because squares are compared instead.
- `HostCommands`: the two scripts define their own copies of the signal latch; they are one class here.
- `MotionProbe`: the single fields of a chassis diagnostic; their conjunction arrives as one flag.
- `MotionProbe.FirstMotionProbe.Spin`: several callbacks in one spin, because the client library runs one per call.
- `MotionProbe`: the evidence-only snapshots of the firmware state.
- `OdomEvidence`: percentiles, drift slopes, yaw unwrapping and the stationarity thresholds, which the verdict does not use.
- `ParameterTree`: that Python takes `True` and `1` for equal, infinities and NaN, and keys that are not strings.
- `PathSampling`: reading points out of a path message, and the length of a path.
- `PoseScoring`: turning scans into beams; endpoints are given in the robot frame.
- `Stage1Params.RenderStage1Params`: does not cover documents with shared mappings (YAML anchors and aliases), on which the envelope check can fire, because documents are trees here.
- `RouterAudit.RouterGatewayAudit.ValidateReachability`: the texts of route lookups, DNS, pings and the HTTP probe arrive as verdicts.
- `RouterAudit.RouterGatewayAudit.Preflight`: the runtime gate, the listeners and the saved profile's single settings arrive as verdicts.
- `RouterAudit`: the saved profile is looked up after the snapshot of identities, so the code does not make sure that it is among them; only members of the snapshot are proved untouched.
- `RtpsCorrelate`: zero-length PAD and INFO_TS submessages in the middle of a message, which the code does not treat specially; whitespace outside ASCII in a GID; the order of the proven sources.
- `WifiRollback.PrivateWifiRollback.Preflight`: single profile settings and the docker bridge's readings arrive as verdicts of one read.
- Landmarks, permits, lifecycle registries, dashboards and the second motion probe, whose own parts are plain conjunctions of checks or live in other modules.
