# SOFIA per-event transforms, modelled in Dafny

This project models the two per-event transforms of the SOFIA analysis
tasks for the R3B experiment.

- **MWPC0 mapped-to-calibrated task** (`mwpc0_calibration.dfy`, module
  `Mwpc0Calibration`, class `Mwpc0Mapped2Cal`). For each event, `Exec` first
  empties the calibrated-data buffer. It then walks the mapped hits in order.
  For each hit it narrows plane and pad to 8 bits and computes the pedestal
  index `nbpad`. The index is `pad*NumParams` for plane 1 and
  `(pad+NumPadX)*NumParams` for plane 3. Any other plane keeps the previous
  hit's index, or 0 for the first hit; such a hit is reported but not
  skipped. `Exec` then narrows the pedestal to 16 bits and subtracts it from
  the raw charge in 16-bit unsigned arithmetic. The hit is appended to the
  buffer when that 16-bit difference is nonzero. So a raw charge below the
  pedestal wraps around and is kept; only a charge equal to the pedestal
  modulo 2^16 is dropped. A hit count above `NumPadX+NumPadY` only raises a
  warning, returned as `warned`. The specification function `Calibrate`
  gives the buffer contents one event produces. `Exec`'s loop is proved to
  produce exactly that, and the lemmas state what `Calibrate` guarantees:
  input order kept, each kept hit at its place, nothing but kept hits,
  index bounds and the wrap-around rule.
- **Start-time provider** (`sofia_tstart.dfy`, module `SofiaTStart`, class
  `ProvideTStart`). `GetTStart` keeps the records whose detector is the start
  detector (`startId`, 1 by default, replaced by the cave-C detector id of
  the parameter container) and whose PMT is 1 or 2. It counts them and sums
  their raw times. It returns the mean when exactly two qualify; otherwise,
  and for an empty event, the start time is undefined. `IsBeam` tells
  whether the start time is defined. `Exec` writes the start time into the
  event header. NaN is modelled as `None` and times as `real`.

The comment at mwpc0/R3BSofMwpc0Mapped2Cal.cxx:165 says a hit is accepted
when the charge is "larger than zero". `charge` is `UShort_t`, so the test
means nonzero. An unknown plane (line 160) is logged, not skipped. The
model follows the code.

## Model

| member | source | states |
|---|---|---|
| `Mwpc0Calibration.Mwpc0Mapped2Cal.Exec` | mwpc0/R3BSofMwpc0Mapped2Cal.cxx:130-172 | the buffer ends up holding exactly `Calibrate` of this event's hits, whatever it held before; `warned` is set iff the hit count is positive and above NumPadX+NumPadY, and it does not change the output; only the buffer changes |
| `Mwpc0Calibration.Mwpc0Mapped2Cal.Reset` | mwpc0/R3BSofMwpc0Mapped2Cal.cxx:180-184 | the output buffer is empty afterwards |
| `Mwpc0Calibration.Mwpc0Mapped2Cal.AddCalData` | mwpc0/R3BSofMwpc0Mapped2Cal.cxx:187-193 | the new calibrated hit goes at the current end of the buffer, and the earlier entries stay |
| `Mwpc0Calibration.Mwpc0Mapped2Cal.SetParameter` | mwpc0/R3BSofMwpc0Mapped2Cal.cxx:79-94 | pad counts, fit-parameter count and pedestal table are taken from the parameter container; the table is the container's own, not the one first sized (NumPadX+NumPadY)*NumParams |
| `Mwpc0Calibration.Mwpc0Mapped2Cal.constructor` | mwpc0/R3BSofMwpc0Mapped2Cal.cxx:26-37 | pad counts and parameter count start at 0, with no table and an empty buffer |
| `Mwpc0Calibration.Calibrate` | mwpc0/R3BSofMwpc0Mapped2Cal.cxx:152-169 | the output is no longer than the input, and no calibrated hit has charge 0 |
| `Mwpc0Calibration.IndexAtByPlane` | mwpc0/R3BSofMwpc0Mapped2Cal.cxx:150-160 | the index is pad*NumParams for plane 1 and (pad+NumPadX)*NumParams for plane 3; any other plane reuses the previous hit's index, or 0 for the first hit |
| `Mwpc0Calibration.IndexAfterBelowTableSize` | mwpc0/R3BSofMwpc0Mapped2Cal.cxx:91 | with NumParams > 0, plane-1 pads below NumPadX and plane-3 pads below NumPadY, the index after any walk lies in [0, (NumPadX+NumPadY)*NumParams) |
| `Mwpc0Calibration.IndicesBelowTableSize` | mwpc0/R3BSofMwpc0Mapped2Cal.cxx:156-162 | under the same conditions, every index `Exec` looks up is inside a table of (NumPadX+NumPadY)*NumParams entries |
| `Mwpc0Calibration.IndicesInContainerTable` | mwpc0/R3BSofMwpc0Mapped2Cal.cxx:91-93 | under the same pad bounds, every index `Exec` looks up is inside the container's table whenever that table holds at least (NumPadX+NumPadY)*NumParams entries, which is what `Exec` requires |
| `Mwpc0Calibration.ChargeAbovePedestal` | mwpc0/R3BSofMwpc0Mapped2Cal.cxx:149-163 | a raw charge at or above the 16-bit pedestal gives the plain difference |
| `Mwpc0Calibration.ChargeBelowPedestalWraps` | mwpc0/R3BSofMwpc0Mapped2Cal.cxx:162-168 | a raw charge below the 16-bit pedestal gives the difference plus 2^16, which is nonzero, so the hit is kept |
| `Mwpc0Calibration.ChargeZeroIff` | mwpc0/R3BSofMwpc0Mapped2Cal.cxx:163-168 | the calibrated charge is zero, and the hit dropped, iff raw charge and pedestal agree modulo 2^16 |
| `Mwpc0Calibration.CalibrateStep` | mwpc0/R3BSofMwpc0Mapped2Cal.cxx:163-168 | hit i appends its calibrated hit to the output of the hits before it iff it is kept, and appends nothing otherwise |
| `Mwpc0Calibration.CalibratePrefix` | mwpc0/R3BSofMwpc0Mapped2Cal.cxx:152-168 | the output for a prefix of the hits is a prefix of the output for all of them: the output keeps the input order |
| `Mwpc0Calibration.CalibratePlacement` | mwpc0/R3BSofMwpc0Mapped2Cal.cxx:165-168 | a kept hit i sits in the output at the position equal to the number of kept hits before it, with its own plane and pad |
| `Mwpc0Calibration.CalibrateSound` | mwpc0/R3BSofMwpc0Mapped2Cal.cxx:152-169 | every output entry is the calibrated hit of some kept input hit |
| `Mwpc0Calibration.ExampleSinglePad` | mwpc0/R3BSofMwpc0Mapped2Cal.cxx:156-167 | plane 1, pad 5, two parameters, pedestal 50 at entry 10 and raw charge 80 give one calibrated hit of charge 30 |
| `SofiaTStart.Selected` | tcal/R3BSofiaProvideTStart.cxx:89-99 | the selection, in input order, is no longer than the input |
| `SofiaTStart.SelectedMembers` | tcal/R3BSofiaProvideTStart.cxx:89-98 | a record is selected iff it is in the input, its detector is the start id and its PMT is 1 or 2 |
| `SofiaTStart.SelectedCount` | tcal/R3BSofiaProvideTStart.cxx:88-97 | the count `ns` equals the number of qualifying positions, so two identical qualifying records count twice |
| `SofiaTStart.SelectedStep` | tcal/R3BSofiaProvideTStart.cxx:89-98 | one more record at the end is added to the selection iff it qualifies |
| `SofiaTStart.SelectedAppend` | tcal/R3BSofiaProvideTStart.cxx:89-99 | the selection of a concatenation is the concatenation of the selections |
| `SofiaTStart.TStartDefinedIffTwo` | tcal/R3BSofiaProvideTStart.cxx:82-108 | the start time is defined iff exactly two records qualify, whatever their PMTs; it is then the mean of their two raw times |
| `SofiaTStart.InsertNonQualifying` | tcal/R3BSofiaProvideTStart.cxx:80-98 | inserting a non-qualifying record anywhere leaves the start time unchanged, also for an empty event |
| `SofiaTStart.RemoveNonQualifying` | tcal/R3BSofiaProvideTStart.cxx:89-98 | removing a non-qualifying record leaves the start time unchanged |
| `SofiaTStart.TwoSamePmtRecords` | tcal/R3BSofiaProvideTStart.cxx:93-103 | two PMT-1 records of the start detector give the mean of their raw times |
| `SofiaTStart.ThreeRecordsUndefined` | tcal/R3BSofiaProvideTStart.cxx:101-108 | three qualifying records give no start time |
| `SofiaTStart.ProvideTStart.GetTStart` | tcal/R3BSofiaProvideTStart.cxx:78-109 | the loop's count and sum give exactly `TStart` for the current start id; the task's state is not changed |
| `SofiaTStart.ProvideTStart.IsBeam` | tcal/R3BSofiaProvideTStart.cxx:111 | true iff exactly two records qualify |
| `SofiaTStart.ProvideTStart.Exec` | tcal/R3BSofiaProvideTStart.cxx:76 | the header's start time becomes `TStart` of the event; nothing else changes |
| `SofiaTStart.ProvideTStart.SetParameter` | tcal/R3BSofiaProvideTStart.cxx:41-46 | the start id becomes the container's cave-C detector id |
| `SofiaTStart.ProvideTStart.constructor` | tcal/R3BSofiaProvideTStart.cxx:22-29 | the start id defaults to 1 |

## Left out

- Event-store and parameter-database lookups (`Init`, `ReInit`, `SetParContainers`, registration of the output collection). The mapped hits, the scintillator records and the parameter containers are parameters of the modelled methods.
- Log output. The only part kept is the too-many-hits warning of the calibrator, returned as a flag. The unknown-plane error message is not modelled; its effect on processing (none) is.
- `Mwpc0Calibration.Mwpc0Mapped2Cal.Exec`: requires every pedestal index to lie inside the table. Out-of-range lookups go to `TArrayI::GetAt`, which is not part of this model. `IndicesInContainerTable` shows the requirement holds when the pads are in range and the container's table holds at least (NumPadX+NumPadY)*NumParams entries; nothing in the source relates the container's table length to that product.
- A missing parameter container: in the calibrator, `SetParameter` would dereference a null pointer and `Exec` only logs a warning; in the start-time provider, `SetParameter` ends with a fatal log (tcal/R3BSofiaProvideTStart.cxx:43). The model always has a container.
- The pedestal table is read as `int`s, and each pedestal is narrowed to 16 bits modulo 2^16. In the source the value passes through a `double` on its way to `UShort_t`; that conversion of a value outside 0..65535 is not modelled beyond this modular narrowing.
- The index arithmetic `pad*NumParams` is done with unbounded integers; 32-bit overflow of `Int_t` is not modelled (pads are below 256 and pad counts are small).
- R3BSofMwpcMappedData, R3BSofMwpcCalData, R3BEventHeader and the parameter container classes are not part of this model. Hits and records are value types, and the header keeps only its start time.
- Memory management in the calibrator (the replaced table allocation, the temporary pointer array and its `delete`).
- IEEE floating point: times are `real`, and NaN is `None`. A NaN raw time, which would make the mean NaN and `IsBeam` false, is not modelled.
- A null event header in the start-time provider's `Exec` is not modelled; the header is always present.
- sofonline/R3BSofOnlineSpectra.cxx (online histograms and canvases) and macros/201410_Ubeam/SofATMapped.C (run wiring) are not part of this model. They hold only display and I/O setup.
