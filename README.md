# A verified model of CObservation2DRangeScan

`CObservation2DRangeScan` is MRPT's record of one planar laser scan. It holds:

- `scan`: one range per ray;
- `validRange`: a validity flag per ray, where 0 means invalid;
- `intensity`: optional per-ray values;
- the sweep geometry: `aperture`, `rightToLeft` and `maxRange`;
- the sensor pose, the range noise `stdError`, `beamAperture`, `deltaPitch`, a timestamp and a sensor label;
- a cached points map.

This project models the record's behaviour and proves properties of it:

- the versioned serialiser: `writeToStream` always writes version 7, and `readFromStream` accepts versions 0 to 7;
- the three in-place validity filters: `truncateByDistanceAndAngle`, both overloads of `filterByExclusionAreas`, and `filterByExclusionAngles`;
- the constructor defaults, `getScanProperties`, `operator<` on `T2DScanProperties`, and the check in `internal_buildAuxPointsMap` that the points-map builder is linked.

Layout, one module per file:

- `wrappers.dfy` (`Wrappers`): `Option` and `Result`. The source's failures become `ScanError` values. These are `ASSERT_` failures, an unknown serialisation version, a truncated or mistyped stream, a missing builder, and (in the as-written angle filter only) a write past the end of the flags.
- `geometry.dfy` (`Geometry`): poses, points and polygons, and the sweep angles.
  - The ray angle is `start + k*dA`, where the start is `-aperture/2` (right to left) or `+aperture/2`, and `dA = ±aperture/(N-1)`.
  - The angle-to-index conversion truncates toward zero.
  - Trigonometry, `wrapTo2Pi`, `CPose3D::composePoint` and `CPolygon::PointIntoPolygon` are function-valued parameters bundled in `Externals`.
- `stream.dfy` (`Stream`): a `CStream` modelled as a sequence of typed tokens.
  - There is one token per value or per buffer element.
  - `RawByte` marks the raw `WriteBuffer`/`ReadBuffer` path used for `validRange`.
  - `InStream` and `OutStream` are classes whose read and write methods consume or append tokens.
- `codec.dfy` (`Codec`): the pure specification of the wire format.
  - `Encoding` is what `writeToStream` writes.
  - `Decode` is what `readFromStream` makes of a token stream, starting from the record's current fields.
  - `Layout` and `Expected` are an independent per-version reference: what a version-`v` writer emits, and which fields a reader of that version restores or defaults.
  - The lemmas connect these: decoding a layout gives the expected fields, the encoding is the version-7 layout, and the round trip.
- `serializer.dfy` (`Serializer`): `writeToStream` and `readFromStream` as step-by-step stream methods, each proved to produce exactly what the `Codec` functions describe.
- `filters.dfy` (`Filters`): each filter has two parts.
  - A pure function says which flags it clears.
  - A method holds the source's loop (the running angle `Ang += dA`, the inner loop over the areas, the clamp-then-clear runs) and is proved equal to that function.
- `scan_properties.dfy` (`Properties`): `T2DScanProperties` and its `operator<`.
- `range_scan.dfy` (`RangeScan`): the class `Observation2DRangeScan`.
  - Its fields are updated in place by `ReadFromStream` and by the filters.
  - Its methods are proved against the functions above.

## Model

| member | source | states |
|---|---|---|
| RangeScan.Observation2DRangeScan.constructor | libs/obs/src/CObservation2DRangeScan.cpp:33-45 | a new record has empty vectors, aperture pi, sweeps right to left, maxRange 80, sigma 0.01, zero beam aperture and pitch, and no cached map. Its timestamp is the construction time `now` the caller passes in |
| RangeScan.Defaults | libs/obs/src/CObservation2DRangeScan.cpp:33-45 | the default record has no rays, no flags and no intensity, and carries the given timestamp |
| RangeScan.DefaultsRoundTrip | libs/obs/src/CObservation2DRangeScan.cpp:33-87 | a newly built record, whatever its timestamp, decodes back to itself after being written as version 7 |
| RangeScan.Observation2DRangeScan.WriteToStream | libs/obs/src/CObservation2DRangeScan.cpp:57-87 | asked for its version, it reports 7 and writes nothing. Otherwise it appends exactly the version-7 encoding of the record. A flag vector whose length differs from the ranges fails after the header and N |
| Serializer.WriteRecord | libs/obs/src/CObservation2DRangeScan.cpp:64-85 | the tokens appended are `Encoding(f)`, or only the header when the flag and range lengths differ (the `ASSERT_`), which gives `Err(AssertionFailed)` |
| Serializer.WriteHeader | libs/obs/src/CObservation2DRangeScan.cpp:64-66 | appends aperture, rightToLeft, maxRange, sensorPose and N (the size taken modulo 2^32), in that order |
| Serializer.WriteFields | libs/obs/src/CObservation2DRangeScan.cpp:73-81 | appends stdError, timestamp, beamAperture, sensorLabel, deltaPitch and the has-intensity flag, in that order |
| Serializer.EncodingChunks | libs/obs/src/CObservation2DRangeScan.cpp:64-85 | the header, the two buffers (written only when N > 0), the fields and the intensity values, appended one after the other, make up `Encoding` |
| Codec.Encoding | libs/obs/src/CObservation2DRangeScan.cpp:64-85 | the written record starts with the five header tokens and has 11 + 2N tokens, plus N more when there is intensity |
| Codec.EncodingIsLayout | libs/obs/src/CObservation2DRangeScan.cpp:57-87 | what `writeToStream` writes is the version-7 layout, with the has-intensity flag set exactly when intensity is non-empty |
| Codec.RoundTrip | libs/obs/src/CObservation2DRangeScan.cpp:57-87 | decoding, as version 7, what was written restores every field and leaves the stream just after the record. This holds when intensity is empty (and was empty before) or has one value per ray |
| Codec.DecodeKeepsStaleIntensity | libs/obs/src/CObservation2DRangeScan.cpp:214-223 | a record written without intensity and read into a record that had intensity keeps the old intensity, because no intensity block is read |
| Codec.Decode | libs/obs/src/CObservation2DRangeScan.cpp:123-230 | a version outside 0..7 fails with UnknownSerializationVersion(version) and only then; every successful decode has one flag per range |
| Codec.DecodeLegacy | libs/obs/src/CObservation2DRangeScan.cpp:127-177 | versions 0..3 fail only with a stream error, and otherwise give one flag per range |
| Codec.DecodeCurrent | libs/obs/src/CObservation2DRangeScan.cpp:179-224 | versions 4..7 fail only with a stream error, and otherwise give one flag per range |
| Codec.TakeLegacyTrailer | libs/obs/src/CObservation2DRangeScan.cpp:142-169 | the flags read or defaulted in versions 0..3 number exactly the rays; failure is a stream error |
| Codec.TakeTrailer | libs/obs/src/CObservation2DRangeScan.cpp:200-223 | reads stdError, timestamp and beamAperture, then label and pitch from version 5, then the intensity block at version 7. Version 4 gets an empty label and zero pitch, and below version 7 the prior intensity is kept. It consumes at least three tokens, five from version 5, and fails only as a stream error |
| Codec.TakeIntensity | libs/obs/src/CObservation2DRangeScan.cpp:216-222 | reads the has-intensity flag. When it is set and N > 0, exactly N values follow. Otherwise the prior intensity is kept and only the flag is consumed. It fails only as a stream error |
| Codec.DecodeLayout | libs/obs/src/CObservation2DRangeScan.cpp:123-224 | for every version 0..7, decoding that version's layout gives the expected fields: the version's own values, the defaults for absent ones, and the old timestamp and intensity where the version does not carry them |
| Codec.DecodeLegacyLayout | libs/obs/src/CObservation2DRangeScan.cpp:127-177 | versions 0..3: the covariance matrix is read and discarded. Version 0 derives the flags from `scan[i] < maxRange`. Versions below 2 set sigma 0.01 and versions below 3 keep the old timestamp. beamAperture becomes 0.25 degrees, deltaPitch 0 and the label empty |
| Codec.DecodeCurrentLayout | libs/obs/src/CObservation2DRangeScan.cpp:179-224 | versions 4..7: the covariance matrix is present only below version 6. Versions below 5 clear the label and pitch. Intensity is read only from version 7, when the flag is set and N > 0 |
| Codec.TakeHeaderTokens | libs/obs/src/CObservation2DRangeScan.cpp:133-136 | reading a header, with or without the covariance matrix, returns its aperture, direction, maxRange, pose and N, and consumes exactly the header |
| Codec.TakeLegacyTrailerTokens | libs/obs/src/CObservation2DRangeScan.cpp:142-169 | the per-version flag, sigma and timestamp part of versions 0..3 reads back as the expected fields |
| Codec.TakeIntensityTokens | libs/obs/src/CObservation2DRangeScan.cpp:216-222 | the has-intensity flag followed by N values reads back as those values. A false flag, or N = 0, keeps the old intensity |
| Codec.TakeTrailerTokens | libs/obs/src/CObservation2DRangeScan.cpp:200-223 | the trailer of versions 4..7 reads back as the expected sigma, timestamp, beam aperture, label, pitch and intensity |
| Codec.TakeTrailerTokens4 | libs/obs/src/CObservation2DRangeScan.cpp:200-213 | version 4 reads sigma, timestamp and beam aperture, then sets an empty label and zero pitch |
| Codec.TakeTrailerTokens56 | libs/obs/src/CObservation2DRangeScan.cpp:200-208 | versions 5 and 6 read the label and pitch too, and keep the old intensity |
| Codec.TakeTrailerTokens7 | libs/obs/src/CObservation2DRangeScan.cpp:200-223 | version 7 reads the intensity block after the pitch |
| Codec.TakeTrailerPrefix | libs/obs/src/CObservation2DRangeScan.cpp:200-207 | the five trailer fields read back one after the other |
| Codec.TrailerTokensSplit | libs/obs/src/CObservation2DRangeScan.cpp:200-223 | from version 5 the trailer is the five field tokens followed by the intensity block |
| Codec.CovarianceIgnored | libs/obs/src/CObservation2DRangeScan.cpp:132-133 | up to version 5 the covariance matrix in the stream does not affect the decoded record |
| Codec.Version6DropsOnlyCovariance | libs/obs/src/CObservation2DRangeScan.cpp:189-190 | a version-5 stream and the same record written as version 6, without the matrix, decode to the same result |
| Serializer.ReadRecord | libs/obs/src/CObservation2DRangeScan.cpp:123-227 | returns what `Decode` gives and leaves the stream where `Decode` does. An unknown version consumes nothing |
| Serializer.ReadLegacy | libs/obs/src/CObservation2DRangeScan.cpp:127-177 | the step-by-step read of versions 0..3 equals `DecodeLegacy` |
| Serializer.ReadCurrent | libs/obs/src/CObservation2DRangeScan.cpp:179-224 | the step-by-step read of versions 4..7 equals `DecodeCurrent` |
| Codec.TakeHeader | libs/obs/src/CObservation2DRangeScan.cpp:133-136 | a header read fails only as a stream error. On success it consumes exactly five tokens, or six with the covariance matrix |
| Serializer.ReadHeader | libs/obs/src/CObservation2DRangeScan.cpp:133-136 | reads the header fields in order, with the covariance matrix only when asked, and matches `TakeHeader` |
| Serializer.ReadLegacyTrailer | libs/obs/src/CObservation2DRangeScan.cpp:142-169 | matches `TakeLegacyTrailer` |
| Serializer.ReadTrailer | libs/obs/src/CObservation2DRangeScan.cpp:200-223 | matches `TakeTrailer` |
| Serializer.ReadIntensity | libs/obs/src/CObservation2DRangeScan.cpp:216-222 | matches `TakeIntensity` |
| Serializer.FillDefaultValidity | libs/obs/src/CObservation2DRangeScan.cpp:151-154 | the version-0 loop sets each flag to `scan[i] < maxRange`, for exactly N flags |
| RangeScan.Observation2DRangeScan.ReadFromStream | libs/obs/src/CObservation2DRangeScan.cpp:123-230 | on success, the fields are what `Decode` makes of the stream and the old fields, and the cached map is cleared. An unknown version fails and changes neither the record nor the stream |
| RangeScan.Observation2DRangeScan.Assign | libs/obs/src/CObservation2DRangeScan.cpp:229 | stores every decoded field and empties the cached map |
| Filters.Truncate | libs/obs/src/CObservation2DRangeScan.cpp:92-117 | one flag per input flag. It fails with AssertionFailed exactly when the scan is non-empty, a height band is given and maxHeight <= minHeight |
| Filters.TruncationAngle | libs/obs/src/CObservation2DRangeScan.cpp:105 | the angle `abs(k*aperture/nPts - aperture/2)` is never negative, and is half the aperture for ray 0 |
| Filters.TruncateClearsExactlyDiscarded | libs/obs/src/CObservation2DRangeScan.cpp:101-117 | no flag is set. A flag is cleared exactly when its ray is too close or too far off-axis, or (with a height band) its forward distance lies outside [h - maxHeight, h - minHeight]. Every other flag keeps its value |
| Filters.TruncateIdempotent | libs/obs/src/CObservation2DRangeScan.cpp:92-117 | truncating twice with the same limits is the same as truncating once |
| Filters.TruncateExample | libs/obs/src/CObservation2DRangeScan.cpp:108-116 | over an aperture of pi, with minimum distance 0.5 and maximum angle 1.0, ranges 1.0, 1.0 and 0.2 clear the first flag by angle and the last by distance, keeping the middle one |
| Filters.ApplyTruncation | libs/obs/src/CObservation2DRangeScan.cpp:99-117 | the loop over the rays computes `Truncate` |
| RangeScan.Observation2DRangeScan.TruncateByDistanceAndAngle | libs/obs/src/CObservation2DRangeScan.cpp:92-117 | the new flags are `Truncate` of the old ones. On failure they are unchanged, and no other field changes |
| Filters.ExcludeAreas | libs/obs/src/CObservation2DRangeScan.cpp:281-338 | an empty area list returns the flags unchanged, whatever their length, and so does an empty scan with no flags. Otherwise it fails exactly when the flags and ranges differ in length, and keeps one flag per ray |
| Filters.ExcludeAreasClearsExactlyContained | libs/obs/src/CObservation2DRangeScan.cpp:308-335 | an invalid ray stays as it is, and no flag is set. A valid ray is cleared exactly when some area holds its global point (the polygon contains (Gx, Gy) and Gz lies in the band) |
| Filters.ExcludeAreasIdempotent | libs/obs/src/CObservation2DRangeScan.cpp:281-338 | filtering twice by the same areas is the same as once |
| Filters.ApplyExclusionAreas | libs/obs/src/CObservation2DRangeScan.cpp:283-335 | the loop with the running angle `Ang += dA` and the early exit over the areas computes `ExcludeAreas` |
| Filters.RayAngleAdvance | libs/obs/src/CObservation2DRangeScan.cpp:294-319 | adding dA to the angle of ray k gives the angle of ray k + 1. So the running angle is `start + k*dA` for every ray, skipped rays included |
| Filters.FindContainingArea | libs/obs/src/CObservation2DRangeScan.cpp:326-334 | the area loop reports a hit exactly when some area holds the point |
| RangeScan.Observation2DRangeScan.FilterByExclusionAreasWithRanges | libs/obs/src/CObservation2DRangeScan.cpp:281-338 | the new flags are `ExcludeAreas` of the old ones. On failure they are unchanged, and no other field changes |
| Filters.UnboundedAreas | libs/obs/src/CObservation2DRangeScan.cpp:347-356 | one area per polygon, in order, each with the band [-DBL_MAX, DBL_MAX] |
| Filters.UnboundedBandsIgnoreHeight | libs/obs/src/CObservation2DRangeScan.cpp:343-358 | with those bands, a (finite) point is excluded exactly when some polygon contains its (x, y) |
| RangeScan.Observation2DRangeScan.FilterByExclusionAreas | libs/obs/src/CObservation2DRangeScan.cpp:343-358 | filtering by polygons is the ranged filter on `UnboundedAreas(polygons)`, and no other field changes |
| Filters.ClampAsWritten | libs/obs/src/CObservation2DRangeScan.cpp:393-397 | the clamp as written keeps an index within [0, N] and leaves in-range indices alone. It yields N exactly when the raw index is N |
| Filters.RangeIndicesAsWritten | libs/obs/src/CObservation2DRangeScan.cpp:390-400 | the indices of a range, converted by truncation and clamped as written, lie in [0, N] |
| Filters.ExcludeAnglesAsWritten | libs/obs/src/CObservation2DRangeScan.cpp:363-418 | the filter exactly as written. An empty range list changes nothing, and so does an empty scan with no flags. Its only errors are AssertionFailed and OutOfBoundsWrite. Mismatched lengths fail with AssertionFailed. A range whose end index survives the clamp as N writes past the flags, reported as OutOfBoundsWrite, and this happens exactly then. Otherwise the flags covered by some run are cleared |
| Filters.ClampsAgreeOffN | libs/obs/src/CObservation2DRangeScan.cpp:393-397 | the clamp as written and the intended clamp agree on every raw index other than N |
| Filters.AsWrittenAgreesWithoutIndexN | libs/obs/src/CObservation2DRangeScan.cpp:388-415 | when no range has a raw start or end index of exactly N, the filter as written and the corrected filter give the same flags |
| Filters.ClampAsWrittenOverruns | libs/obs/src/CObservation2DRangeScan.cpp:396-405 | 5 rays over pi, right to left, and the range (2.0, 2.5): raw indices 4 and 5 pass the clamp as written. The run [4, 5] writes flag 5, one past the end (OutOfBoundsWrite). The corrected clamp gives [4, 4] and clears ray 4 |
| Filters.ClampAsWrittenSkipsWrappedRun | libs/obs/src/CObservation2DRangeScan.cpp:393-413 | 5 rays over pi, right to left, and the range (2.5, -1.0): raw indices 5 and 0 stay 5 and 0 as written. The wrap branch runs over [0, 0) and [5, 5) and clears nothing. The corrected clamp clears ray 4 |
| Filters.ClampAsWrittenWrapsWrongly | libs/obs/src/CObservation2DRangeScan.cpp:393-413 | 5 rays over pi, right to left, and the range (2.5, 3.2), which lies past the last ray: raw indices 5 and 6 clamp as written to 5 and 4. The wrap branch then clears rays 0 to 3, all in bounds. The corrected clamp clears ray 4 only |
| Filters.ClampIndex | libs/obs/src/CObservation2DRangeScan.cpp:393-397 | the intended clamp: always below N, in-range indices unchanged, negative ones to 0, and N or above to N - 1 |
| Filters.RangeIndices | libs/obs/src/CObservation2DRangeScan.cpp:390-400 | with the intended clamp, both clamped indices of an exclusion range are valid ray indices |
| Filters.RunsStayInRange | libs/obs/src/CObservation2DRangeScan.cpp:402-414 | with the intended clamp, every ray a run clears lies in [0, N) |
| Filters.ClearRun | libs/obs/src/CObservation2DRangeScan.cpp:402-414 | clears [ini, end] when end >= ini, and otherwise [0, end) and [ini, N). Every other flag is kept |
| Filters.ExcludeRange | libs/obs/src/CObservation2DRangeScan.cpp:390-414 | one range clears exactly the run between its clamped indices |
| Filters.CoveredByAnyExtend | libs/obs/src/CObservation2DRangeScan.cpp:388-415 | after one more range, a ray is covered exactly when it was covered before or the new range's run covers it |
| Filters.ExcludeAngles | libs/obs/src/CObservation2DRangeScan.cpp:363-418 | with the intended clamp: an empty range list returns the flags unchanged, whatever their length, and so does an empty scan with no flags. It fails exactly when the ranges are non-empty and the lengths differ, and keeps one flag per ray |
| Filters.ExcludeAnglesClearsExactlyCovered | libs/obs/src/CObservation2DRangeScan.cpp:388-415 | a flag is zero afterwards exactly when it was zero or some range's run covers its ray. Every other flag keeps its value |
| Filters.ExcludeAnglesIdempotent | libs/obs/src/CObservation2DRangeScan.cpp:363-418 | excluding the same angle ranges twice is the same as once |
| Filters.ExcludeAnglesAsWrittenIdempotent | libs/obs/src/CObservation2DRangeScan.cpp:363-418 | when the filter as written succeeds, running it again on its result changes nothing |
| Filters.LeftToRightClearsOnlyFirstRay | libs/obs/src/CObservation2DRangeScan.cpp:380-397 | sweeping left to right, dA < 0 while `wrapTo2Pi` is never negative, so every index clamps to 0: only ray 0 is cleared, whatever the ranges |
| Filters.LeftToRightIndexIsZero | libs/obs/src/CObservation2DRangeScan.cpp:390-394 | sweeping left to right, each clamped index is 0 |
| Filters.WrappedRangeExample | libs/obs/src/CObservation2DRangeScan.cpp:407-414 | 5 rays over pi, right to left, and the range (1, -1) (end index below start index): flags 3 and 4 are cleared, while 0, 1 and 2 stay |
| Filters.ApplyExclusionAngles | libs/obs/src/CObservation2DRangeScan.cpp:365-415 | the loop over the ranges computes `ExcludeAngles` |
| RangeScan.Observation2DRangeScan.FilterByExclusionAngles | libs/obs/src/CObservation2DRangeScan.cpp:363-418 | the new flags are `ExcludeAngles` of the old ones. On failure they are unchanged, and no other field changes |
| Geometry.Abs | libs/obs/src/CObservation2DRangeScan.cpp:105 | `fabs` is never negative and is the value or its negation |
| Geometry.AngleStep | libs/obs/src/CObservation2DRangeScan.cpp:294-303 | with a positive aperture the step is positive exactly when the sweep is right to left |
| Geometry.RawIndex | libs/obs/src/CObservation2DRangeScan.cpp:388-391 | a single ray gives index 0. Otherwise the index is the wrapped angle offset over the step, truncated toward zero, so it lies within one of that quotient and has its sign |
| Geometry.TruncToInt | libs/obs/src/CObservation2DRangeScan.cpp:390-391 | the conversion of a double to int truncates toward zero |
| RangeScan.Observation2DRangeScan.InternalBuildAuxPointsMap | libs/obs/src/CObservation2DRangeScan.cpp:433-439 | without a linked builder it fails with UnlinkedDependency and leaves the cache alone. With one, the cache becomes the builder's map of this scan. The serialised fields never change |
| RangeScan.Observation2DRangeScan.GetScanProperties | libs/obs/src/CObservation2DRangeScan.cpp:442-447 | the ray count is the number of ranges, and the aperture and direction are the record's own |
| Properties.Less | libs/obs/src/CObservation2DRangeScan.cpp:449-452 | `operator<` holds only between different properties. Fewer rays or a smaller aperture alone is enough for it to hold |
| Properties.LessIrreflexive | libs/obs/src/CObservation2DRangeScan.cpp:449-452 | no properties are below themselves |
| Properties.LessNotAsymmetric | libs/obs/src/CObservation2DRangeScan.cpp:449-452 | (1 ray, aperture 2) and (2 rays, aperture 1) are each below the other, so the ordering is not a strict weak ordering |
| Properties.LessOnOneField | libs/obs/src/CObservation2DRangeScan.cpp:449-452 | between properties that differ in a single field, the ordering is that field's usual ordering |
| Stream.TakeMany | libs/obs/src/CObservation2DRangeScan.cpp:197-198 | reading a buffer of N values yields exactly N values and leaves the tokens after them. It fails only as a stream error |
| Stream.TakeManyTokens | libs/obs/src/CObservation2DRangeScan.cpp:139-147 | N values written as a buffer read back as the same N values |

## Left out

- Floating point is modelled as real arithmetic. There is no float/double rounding, and no single-precision narrowing of `aperture`, `maxRange`, `stdError` or `beamAperture`. The values 80, 0.01 and 0.25 degrees are exact.
- The byte encoding of `CStream` is not modelled. Endianness fixing, IEEE bit patterns, string length prefixes, and the layout of `CPose3D` and `CMatrix` are left out: each value is one token, and a buffer is one token per element.
- Trigonometry, `wrapTo2Pi`, `CPose3D::composePoint` and `CPolygon::PointIntoPolygon` are uninterpreted function parameters. Only the facts a lemma states in its requires are assumed about them.
- RangeScan.Observation2DRangeScan.constructor: the base observation's constructor is not part of this model. The timestamp it stamps from the clock is the constructor's `now` parameter. The sensor label is the empty string a default-constructed string holds.
- The map construction behind the run-time-linked builder pointer is not part of this model. A builder is any function from the record's fields to a points map.
- `writeToMatlab`, `getDescriptionAsText` and `isPlanarScan` are not part of this model: foreign Matlab calls, text formatting, and a wrapper over `CPose3D::isHorizontal`.
- RangeScan.Observation2DRangeScan.ReadFromStream: on a stream error it promises only the error. The source leaves the record partly overwritten at the point where the stream ran out. The method itself changes nothing on an error.
- RangeScan.Observation2DRangeScan.ReadFromStream: the stream's own exception (the token that does not fit) is collapsed into the single `StreamError`.
- RangeScan.Observation2DRangeScan.WriteToStream: requires a non-empty intensity to hold at least N values. The source then reads past the vector (`WriteBufferFixEndianness(&intensity[0], N)`), which is undefined behaviour.
- Codec.RoundTrip: requires intensity to be empty or one value per ray. A longer vector is written and read back cut to N values. An empty one read into a record that had intensity keeps the old values (`DecodeKeepsStaleIntensity`).
- Filters.Truncate: requires at least as many flags as ranges, and so does RangeScan.Observation2DRangeScan.TruncateByDistanceAndAngle. The source walks the flag iterator in step with the ranges and would write past a shorter flag vector.
- Filters.ExcludeAngles: requires a non-zero aperture when the ranges and the scan are non-empty and the flags match the scan in length. Mismatched lengths fail at the length check before any division, for any aperture. With matching lengths and a zero aperture, the source divides by a zero step, and converting the resulting infinity or NaN to `int` is undefined behaviour. With one ray the step is infinite, each raw index is 0, and the model gives that.
- Filters.ExcludeAngles: uses the corrected upper clamp (`>=`, see Findings). It can differ from the source whenever a range has a raw index of exactly N; the two agree when the affected flags are already 0. A raw end index of N makes the source write one flag past the end. A raw start index of N with a raw end index above N makes the source take the wrap branch and clear rays 0 to N-2 instead of ray N-1. A raw start index of N with a raw end index below N makes the wrap branch clear only [0, end) and skip ray N-1. The source's behaviour is modelled as `Filters.ExcludeAnglesAsWritten`, and `Filters.AsWrittenAgreesWithoutIndexN` proves the two agree when no raw index equals N.
- Filters.ExcludeRange: clamps with `>=`, so it shares the divergence from the source described for `Filters.ExcludeAngles`.
- Filters.ApplyExclusionAngles: the loop clamps with `>=` where the source uses `>`. It computes the corrected `Filters.ExcludeAngles`, not the source's `Filters.ExcludeAnglesAsWritten`, and can differ from the source only when a raw index equals N.
- RangeScan.Observation2DRangeScan.FilterByExclusionAngles: the new flags are the corrected `Filters.ExcludeAngles`, with the same divergence for a raw index of exactly N. The source's out-of-bounds write cannot happen to the record's flags here.
- The filters leave the cached points map as it is, as the source does: the map can go stale after a filter. The methods' `OnlyValidRangeChanged` says so.
- Integer widths: N is written as `uint32` (the count taken modulo 2^32). The intensity values are unbounded integers. A `double` to `int` conversion out of `int` range (undefined behaviour in C++) is modelled as an exact truncation.
- The area filter with one ray: the source's step `aperture/0` is infinite, or NaN for a zero aperture, but is only added after the last ray, so the model uses step 0 there, with the same ray angles.

Three behaviours of the code worth noting:

- Truncation measures the angle as `k*aperture/nPts` (dividing by N, not N - 1).
- The angle-to-index conversion truncates rather than rounds.
- When end < start, the angle filter clears [0, end), excluding end, and [start, N).

## Findings

| source | as written | input that shows it | evidently intended | confidence | as-written member | corrected member |
|---|---|---|---|---|---|---|
| libs/obs/src/CObservation2DRangeScan.cpp:396-397 | `if (ap_idx_end > (int)sizeRangeScan) ap_idx_end = sizeRangeScan-1;` lets a raw end index equal to N through, and the loop at :404-405 then writes `validRange[N]`, one past the end | N = 5, aperture pi, right to left, range (2.0, 2.5) with `wrapTo2Pi` the identity on those angles: raw indices 4 and 5, so the run [4, 5] | clamp with `>=`, so both indices stay in [0, N-1] and the run is [4, 4] | high, not executed | Filters.ClampAsWrittenOverruns | Filters.ExcludeAngles |
| libs/obs/src/CObservation2DRangeScan.cpp:396-397, 407-413 | the same clamp keeps a raw start index of N while clamping a larger end index to N-1. The end is then below the start, so the wrap branch clears [0, N-1) and keeps ray N-1 | N = 5, aperture pi, right to left, range (2.5, 3.2) with `wrapTo2Pi` the identity on those angles: raw indices 5 and 6 become 5 and 4, and rays 0 to 3 are cleared | clamp with `>=`: both indices become N-1, as the source already does for indices above N, and only ray N-1 is cleared | high, not executed | Filters.ClampAsWrittenWrapsWrongly | Filters.ExcludeAngles |
| libs/obs/src/CObservation2DRangeScan.cpp:396-397, 407-413 | the same clamp keeps a raw start index of N while an end index below N stays as it is. The wrap branch then runs over [0, end) and [N, N) and never reaches ray N-1 | N = 5, aperture pi, right to left, range (2.5, -1.0) with `wrapTo2Pi` the identity on those angles: raw indices 5 and 0, and nothing is cleared | clamp with `>=`: the start becomes N-1 and the wrap branch clears ray N-1 | high, not executed | Filters.ClampAsWrittenSkipsWrappedRun | Filters.ExcludeAngles |
