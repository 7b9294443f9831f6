# rainhdf core, modelled in Dafny

rainhdf reads and writes weather-radar products in the ODIM_H5 layout on
top of HDF5. A product file is a tree of groups:

- Every group may carry "what", "where" and "how" metadata groups.
- A polar volume holds numbered scans (`dataset1`, `dataset2`, ...).
- A scan or a vertical profile holds numbered data layers (`data1`, ...)
  and quality layers (`quality1`, ...).
- Each layer has a "what" group with its quantity, its calibration
  (`gain`, `offset`) and its sentinels (`nodata`, `undetect`), and an
  array named `data`.

This project models that core as pure functions over an immutable
container. The container maps each path to an object: a group, or a
dataset holding an array. Every object carries a map of attributes.
Every failure the library throws becomes a `Failure` value.

The modules follow the library:

- `Store`: the HDF5 container: adding groups and datasets, reading and
  writing attributes, replacing array values.
- `Attributes`: the typed attribute readers and writers of `util.cc` and
  `util.h`. These cover text, booleans, `long`, `double`, arrays,
  date/time pairs and enumeration codes, with their type and size checks.
- `Codes`: the object, product and quantity enumerations and their
  ODIM_H5 codes.
- `Decimal`, `Calendar`, `Timestamp`: the `sprintf`/`sscanf` texts of the
  `date` and `time` attributes, and the `gmtime`/`timegm` conversion.
- `Numeric`, `Machine`, `Calibration`: truncation, `lround`, 64-bit
  `long`/`size_t` casts, and the `gain`/`offset` calibration.
- `Node`: the `base` class: a group with its optional metadata groups and
  the "how" attribute lookup.
- `LayerIndex`, `Product`: numbering layers by probing, and adding the next
  layer of a family.
- `DataLayer`: the layer class of `data.cc`.
- `Scan`, `Profile`: the scan and vertical-profile products.
- `Volume`: the polar volume of `volume.cc`, with its scans and layers.

## Model

| member | source | states |
|---|---|---|
| Store.AddEffect | rainhdf/base.cc:20-32 | A successful create adds exactly one object, the new child, which was absent before; every object already there is unchanged |
| Store.AddKeepsWellFormed | rainhdf/base.cc:20-32 | Creating an object keeps every object inside a group |
| Store.ReadAfterPut | src/old/util.cc:350-382 | An attribute written in place reads back as the value written, and every other attribute of every object reads as it did |
| Store.CreateThenRead | src/old/util.cc:239-259 | An attribute can be created only while it is missing; afterwards it reads back as created, and every other attribute reads as it did |
| Store.DeleteAttr | src/old/util.cc:384-438 | Deleting an attribute removes that name only; every other object and attribute is unchanged |
| Store.PutValues | src/old/data.cc:204-313 | Writing an array replaces its values only; extents, type, attributes and other objects are unchanged |
| Codes.ObjectOfCode | src/old/util.cc:14-23 | Every known object type's code reads back as that type, so the codes are pairwise distinct |
| Codes.ObjectCodeOf | src/old/util.cc:14-23 | A code that reads as a known object type is that type's own code |
| Codes.ProductOfCode | src/old/util.cc:24-41 | Every known product type's code reads back as that type |
| Codes.ProductCodeOf | src/old/util.cc:24-41 | A code that reads as a known product type is that type's own code |
| Codes.QuantityOfCode | rainhdf/util.h:60-86 | Every known quantity's code reads back as that quantity |
| Codes.QuantityCodeOf | rainhdf/util.h:60-86 | A code that reads as a known quantity is that quantity's own code |
| Numeric.Truncate | src/old/util.cc:350-382 | A `(long)` conversion lies within one of its argument, is no larger in magnitude, and keeps the sign |
| Numeric.Round | src/old/data.cc:120-121 | `lround` is within a half of its argument, and a tie goes away from zero |
| Numeric.RoundUnique | src/old/data.cc:120-121 | Any integer meeting the rounding contract is the rounded value, so the contract determines `lround` |
| Machine.AsLong | rainhdf/scan.cc:36-40 | `(long)` of a count is a 64-bit signed value congruent to it modulo 2^64 |
| Machine.AsSize | rainhdf/scan.cc:43-47 | `(size_t)` of a `long` is a 64-bit unsigned value congruent to it modulo 2^64 |
| Machine.SizeThroughLong | rainhdf/scan.cc:36-47 | Every `size_t` count stored as a `long` attribute and read back into a `size_t` is intact |
| Decimal.NatDigitsInjective | src/old/util.cc:321-343 | Distinct numbers print as distinct digit strings |
| Decimal.FormatIntExact | src/old/util.cc:321-343 | A value below 10^width prints under `%0<width>d` as exactly `width` digits worth that value |
| Decimal.ScanDigitPrefix | src/old/util.cc:195-232 | A `%<width>d` conversion over a field starting with `width` digits reads exactly those digits and leaves the rest |
| Decimal.ScanFormatted | src/old/util.cc:195-343 | `%<width>d` reads back what `%0<width>d` printed, and leaves what follows unread |
| Calendar.SplitYear | src/old/util.cc:321-343 | Walking from a year's start by a day count lands on one year and a day inside it, at the same day number |
| Calendar.SplitMonth | src/old/util.cc:321-343 | A day of the year falls in one month, on a day inside that month |
| Calendar.GmTime | src/old/util.cc:321-343 | `gmtime` yields a broken-down time with every field in its normal range |
| Calendar.YearStep | src/old/util.cc:195-232 | Consecutive years begin exactly one year-length apart under the POSIX day count |
| Calendar.YearUnique | src/old/util.cc:321-343 | A day number has exactly one reading as a year and a day of that year |
| Calendar.MonthUnique | src/old/util.cc:321-343 | A day of the year has exactly one reading as a month and a day of that month |
| Calendar.TimegmOfGmTime | src/old/util.cc:195-343 | `timegm` undoes `gmtime`: every instant survives the round trip |
| Calendar.GmTimeOfTimegm | src/old/util.cc:195-343 | `gmtime` undoes `timegm` on every normalised broken-down time |
| Calendar.DateOfDays | src/old/util.cc:321-343 | The day number of a normalised date splits back into that same year, month and day |
| Timestamp.Encode | src/old/util.cc:321-343 | The date text has 8 characters and the time text 6, after the 16-byte buffer is cut at index 8 |
| Timestamp.Decode | src/old/util.cc:195-232 | Reading an instant fails exactly when the joined date and time text does not scan as six fields |
| Timestamp.ScanPrint | src/old/util.cc:195-343 | Fields that fit their widths print as 15 characters with a space at index 8 and scan back to the same fields |
| Timestamp.EncodeShape | src/old/util.cc:321-343 | For non-negative four-digit years the texts are all digits and carry the UTC year, month and day |
| Timestamp.DecodeEncode | src/old/util.cc:195-343 | Every instant whose year is non-negative and prints in four digits decodes back to itself |
| Attributes.GetChars | src/old/util.cc:123-133 | A text read fails with a type mismatch for a non-string and a size mismatch when the text and terminator overflow the buffer; otherwise it yields the text |
| Attributes.GetString | src/old/util.cc:135-151 | A `std::string` read is a type mismatch for a non-string and a size mismatch when the text and its terminator pass 2048 bytes. Otherwise it yields the stored text up to its first NUL, which is all of it when it holds none |
| Attributes.GetBool | src/old/util.cc:97-107 | A boolean reads as true when the buffer holds the C string "True" and false for "False"; any other text is a bad value |
| Attributes.GetLong | src/old/util.cc:109-115 | A `long` read succeeds for a one-element number, truncating a real toward zero, and fails for a text |
| Attributes.GetDouble | src/old/util.cc:116-121 | A `double` read succeeds for a one-element number and yields its value, and fails for a text |
| Attributes.GetLongArray | src/old/util.cc:153-172 | A `long` array read needs the integer class and room in the buffer, and yields the elements and their count |
| Attributes.GetDoubleArrayAsWritten | src/old/util.cc:174-193 | As written, a `double` array read succeeds only for integer-class attributes |
| Attributes.GetDoubleArray | src/old/util.cc:174-193 | With the floating-point class check its comment describes, a `double` array read yields exactly the stored reals |
| Attributes.GetTime | src/old/util.cc:195-232 | A time read yields exactly the instant its date and time texts decode to whenever they scan, a bad value when they do not, and passes on a failure to read either text |
| Attributes.GetObject | src/old/util.cc:14-23 | A known object type read is the type whose code the stored text is; a text that is no type's code reads as the unknown type |
| Attributes.GetProduct | src/old/util.cc:24-41 | A known product type read is the type whose code the stored text is; a text that is no type's code reads as the unknown type |
| Attributes.GetQuantity | rainhdf/util.h:191-193 | A known quantity read is the quantity whose code the stored text is; a text that is no quantity's code reads as the unknown quantity |
| Attributes.New | src/old/util.cc:234-319 | Creating an attribute fails when it exists; otherwise it holds the value and nothing else changes |
| Attributes.NewTime | src/old/util.cc:321-343 | Creating an instant writes its date and time texts, and nothing else changes |
| Attributes.NewCode | rainhdf/util.h:171-173 | An enumeration value without a code is a bad value. Any other is created exactly when the name is free, holds its code, and nothing else changes |
| Attributes.NewQuantityReads | rainhdf/util.h:171-193 | A known quantity created as its code reads back as itself |
| Attributes.UpToNul | src/old/util.cc:150 | Assigning a buffer to a `std::string` keeps a NUL-free prefix of the buffer that stops at its first NUL or its end |
| Attributes.WriteNumber | src/old/util.cc:350-382 | An in-place numeric write keeps the attribute's type and size, truncating into an integer one, and fails for a text |
| Attributes.SetNumber | src/old/util.cc:350-382 | Setting a number writes in place when the attribute exists and creates it otherwise; nothing else changes |
| Attributes.Replace | src/old/util.cc:384-438 | Setting a text or array deletes and recreates it, so it holds the new value whatever it held; nothing else changes |
| Attributes.SetTime | src/old/util.cc:440-463 | Setting an instant replaces both texts with the encoded ones and nothing else |
| Attributes.SetCode | rainhdf/util.h:181-183 | An enumeration value without a code is a bad value. Any other replaces the attribute with its code whatever it held, and nothing else changes |
| Attributes.StringRoundTrip | src/old/util.cc:135-151 | A text written reads back up to its first NUL, all of it when it holds none, when it fits the buffer with its terminator; a longer one is refused as too large |
| Attributes.BoolRoundTrip | src/old/util.cc:97-107 | A boolean written reads back |
| Attributes.LongRoundTrip | src/old/util.cc:109-115 | A `long` written reads back, whatever numeric type the attribute had |
| Attributes.DoubleRoundTrip | src/old/util.cc:350-382 | A `double` written reads back, except into an integer attribute, which keeps its type and holds the value truncated |
| Attributes.LongArrayRoundTrip | src/old/util.cc:153-172 | A `long` array written reads back exactly when the buffer holds it, and is a size mismatch otherwise |
| Attributes.DoubleArrayRoundTrip | src/old/util.cc:174-193 | With the corrected class check, a `double` array written reads back exactly when the buffer holds it |
| Attributes.DoubleArrayAsWrittenRefuses | src/old/util.cc:174-193 | As written, every `double` array the library writes is refused by its own reader |
| Attributes.TimeRoundTrip | src/old/util.cc:195-232 | An instant written reads back, for every non-negative year that prints in four digits |
| Attributes.ObjectRoundTrip | rainhdf/util.h:181-193 | A known object type set as its code reads back as itself |
| Attributes.ProductRoundTrip | rainhdf/util.h:181-193 | A known product type set as its code reads back as itself |
| Attributes.QuantityRoundTrip | rainhdf/util.h:181-193 | A known quantity set as its code reads back as itself |
| Attributes.ReadOther | src/old/util.cc:345-463 | Writing one attribute changes how no other attribute reads |
| Attributes.FrameCompose | src/old/util.cc:321-343 | Two successive writes of different names change nothing else, and the second keeps the first |
| Node.IndexedNameInjective | rainhdf/base.cc:27-32 | Distinct indices name distinct members of a numbered family |
| Node.CreateNamed | rainhdf/base.cc:20-25 | Creating a named group succeeds exactly when its parent is a group and the name is free; its metadata handles start closed |
| Node.OpenAt | rainhdf/base.cc:34-62 | Opening a group succeeds exactly when it is a group, and opens each metadata group that exists; `attrCount` counts the "how" attributes |
| Node.OpenCreated | rainhdf/base.cc:20-62 | A group just created opens as the node its creation returned |
| Node.CheckCreateWhat | rainhdf/base.cc:13-62 | Opening "what" for writing keeps an open one, and otherwise creates it exactly when it is absent |
| Node.CheckCreateWhere | rainhdf/base.cc:13-62 | Opening "where" for writing keeps an open one, and otherwise creates it exactly when it is absent |
| Node.Attribute | rainhdf/base.cc:79-108 | The "how" lookup gives no handle without "how" unless asked to create it. It creates the group when asked, finds an existing attribute, and offers a creating handle for a missing one |
| Node.AttributeConst | rainhdf/base.cc:110-120 | The read-only lookup gives a handle only on an attribute that exists in an open "how" group |
| Node.AttributeConstAgrees | rainhdf/base.cc:79-120 | The read-only lookup agrees with the lookup that does not create |
| Node.AttributeFoundAfterWrite | rainhdf/base.cc:79-108 | An attribute written through the handle that creates it is found by the next lookup |
| Node.SetHowAttr | rainhdf/util.h:196-199 | Setting an optional "how" attribute opens "how", creating it if needed, and the value reads back |
| Calibration.ToStored | src/old/data.cc:212-230 | The stored value a write computes maps back to the physical value it came from |
| Calibration.StoredOfPhysical | src/old/data.cc:129-139 | Converting a stored value to physical and back gives the stored value |
| Calibration.IdentityUncalibrated | src/old/data.cc:129-139 | The identity calibration is not converted, and a gain of zero always is |
| Calibration.RoundedRoundTrip | src/old/data.cc:129-139 | An integer written through a calibration and read back is within half the gain plus a half, and exact when the gain is below one in magnitude |
| DataLayer.ComputeSize | src/old/data.cc:39-40 | The element count is the product of the extents, and is zero exactly when some extent is zero |
| DataLayer.MarkImage | src/old/data.cc:66-70 | Only a two-dimensional array is marked as an image |
| DataLayer.Create | src/old/data.cc:22-71 | A new layer has identity calibration and the extents' element count, and succeeds only for a free name inside a group |
| DataLayer.CreateContents | src/old/data.cc:22-71 | In a well-formed container a free name always takes the layer. Its "what" group holds the quantity, a gain of one and an offset of zero. Its array is zero-filled, and marked as an image only in two dimensions |
| DataLayer.Open | src/old/data.cc:73-109 | An opened layer reads its calibration from "what", is sized by the caller's extents, and is floating point exactly when calibrated or its array is not integral |
| DataLayer.OpenCreated | src/old/data.cc:22-109 | A layer just created opens as the layer its creation returned |
| DataLayer.CreateLeavesOthers | src/old/data.cc:22-71 | Creating a layer adds its group, its "what" group and its array, and changes nothing else |
| DataLayer.CreateKeepsWellFormed | src/old/data.cc:22-71 | Creating a layer keeps every object inside a group |
| DataLayer.CheckedArray | src/old/data.cc:114-117 | Values move only when the array has exactly the layer's element count; otherwise it is a size mismatch |
| DataLayer.ReadInt | src/old/data.cc:112-140 | The integer read gives `lround` sentinels and truncated values. A calibrated layer rounds each physical value. Without a buffer only the sentinels come back |
| DataLayer.ReadReal | src/old/data.cc:143-202 | The `float` and `double` reads give the stored values and sentinels, or their physical values when calibrated. Without a buffer only the sentinels come back |
| DataLayer.Encode | src/old/data.cc:204-313 | An uncalibrated write stores what it is given. A calibrated `float` or `double` write stores values and sentinels whose physical values are the ones given; the `int` writer stores each rounded after mapping it back through the calibration; a zero gain is refused |
| DataLayer.Write | src/old/data.cc:204-313 | The `int`, `float` and `double` writers succeed exactly when the array has the layer's size, the calibration can be inverted and both sentinels can be set. They replace the array's values with the encoded ones in the array's element type, and leave every other object, the array's shape and attributes, and every other "what" attribute unchanged |
| DataLayer.PutSentinels | src/old/data.cc:225-226 | Setting the two sentinels succeeds exactly when the "what" group exists and any sentinel it holds is a single number, and changes no other attribute |
| DataLayer.WriteAfterCreate | src/old/data.cc:204-313 | A layer just created takes any write of its size, and reals written to a floating-point one read back exactly |
| DataLayer.WriteEffect | src/old/data.cc:204-313 | After a write, the array holds the encoded values. The sentinels hold the encoded sentinels, truncated into an integer attribute |
| DataLayer.RealRoundTrip | src/old/data.cc:143-202 | Reals written to a real-valued array read back exactly, values and sentinels, calibrated or not |
| DataLayer.IntRoundTrip | src/old/data.cc:112-140 | Integers written to an uncalibrated layer read back exactly |
| DataLayer.CalibratedIntRoundTrip | src/old/data.cc:112-140 | Integers written to a calibrated layer read back within half the gain plus a half, exactly when the gain is below one |
| LayerIndex.Inspect | rainhdf/scan.cc:61-81 | A probed layer is recorded only when its group and "what" group exist and hold a quantity, kept as its text |
| LayerIndex.Series | rainhdf/scan.cc:61-104 | Probing from `k` records each consecutive member found, numbered from `k`, and stops at the first missing one. A failure points at a member that exists but cannot be read |
| LayerIndex.PartsCover | rainhdf/scan.cc:61-104 | Every layer is a data layer or a quality layer, never both |
| LayerIndex.NextIndex | rainhdf/scan.cc:164-176 | A new layer is numbered one past the last layer of its family, searching from the end, or 1 when there is none |
| LayerIndex.LastIsCount | rainhdf/scan.cc:164-176 | With contiguous numbering, the last number of a family is its count |
| LayerIndex.ContiguousSnoc | rainhdf/scan.cc:157-194 | Appending the family's next number keeps the numbering contiguous and raises only that family's count |
| LayerIndex.NextIsCountPlusOne | rainhdf/scan.cc:157-194 | With contiguous numbering the next number is the family's count plus one, and adding it keeps the numbering contiguous |
| LayerIndex.SeriesContiguous | rainhdf/scan.cc:61-104 | A family found by probing from 1 is contiguous |
| LayerIndex.JoinContiguous | rainhdf/scan.cc:61-104 | Data layers followed by quality layers, each numbered from 1, are contiguous |
| LayerIndex.FindFirst | rainhdf/scan.cc:129-155 | The first layer holding a quantity is the one the search finds |
| LayerIndex.Find | rainhdf/scan.cc:129-155 | The search yields the first layer holding the quantity, and nothing exactly when no layer holds it |
| Product.OpenLayers | rainhdf/scan.cc:61-104 | The layers found are contiguous, and no member past either family's count exists |
| Product.LayerAt | rainhdf/scan.cc:107-127 | The `i`th layer opens at the member the list records, with its family and quantity and the product's element count, and fails when that member is missing |
| Product.LayerOf | rainhdf/scan.cc:129-155 | The quantity lookup opens the first layer holding it, and gives none when there is none |
| Product.AddLayer | rainhdf/scan.cc:157-194 | Adding creates the family's next layer and appends it to the list only when creation succeeded |
| Product.AddLayerKeepsConsistent | rainhdf/scan.cc:157-194 | With a consistent list in a well-formed container, adding always succeeds and keeps the list consistent |
| Product.ReadStampedTimes | rainhdf/scan.cc:31-33 | A product's start and end instants read back for non-negative four-digit years |
| Scan.CreateAsWritten | rainhdf/scan.cc:16-41 | As written, creating a scan always fails, and fails to open its metadata when the name is free |
| Scan.Create | rainhdf/scan.cc:16-41 | A scan is created only under a free name inside a group, and has the given extents and no layers |
| Scan.CreateKeepsWellFormed | rainhdf/scan.cc:16-41 | Creating a scan keeps every object inside a group |
| Scan.Open | rainhdf/scan.cc:43-105 | An opened scan reads its extents from "where" as `size_t`, and its product tag must be SCAN, otherwise it is a product mismatch. Its layers are the data then quality layers found by probing |
| Scan.LayerCount | src/old/scan.h:50 | The layer count is the number of data layers plus the number of quality layers |
| Scan.LayerQuantity | src/old/scan.h:52 | The quantity of layer `i` is the one the list records for it, and a lookup by that quantity finds layer `i` or an earlier one |
| Scan.Layer | rainhdf/scan.cc:107-127 | The `i`th layer has the recorded family and quantity and spans every azimuth and range bin |
| Scan.LayerByQuantity | rainhdf/scan.cc:129-155 | The lookup opens the first layer holding the quantity, or fails as opening it fails, and gives none without an error when no layer holds it |
| Scan.AddLayer | rainhdf/scan.cc:157-194 | A new layer is numbered one past its family and spans the scan. The list grows only when the layer was created |
| Scan.OpenAfterCreate | rainhdf/scan.cc:16-105 | A scan just created opens as the scan its creation returned: same group, same extents, no layers |
| Scan.GeometryAfterCreate | src/old/scan.h:33-47 | A new scan reads back its elevation, first azimuth, range start and range scale. The range start goes through /1000 and *1000 |
| Scan.TimesAfterCreate | src/old/scan.h:45-47 | A new scan reads back its start and end instants for non-negative four-digit years |
| Scan.CreatedIsConsistent | rainhdf/scan.cc:16-41 | A new scan is well formed and its empty list is consistent, so layers can be added |
| Scan.AddLayerKeepsConsistent | rainhdf/scan.cc:157-194 | Adding a layer to a consistent scan succeeds, keeps it consistent, numbers the layer one past its family's count and raises the count by one |
| Scan.CreateAsWrittenFails | rainhdf/scan.cc:16-41 | Where the corrected create succeeds, the create as written fails |
| Profile.Create | rainhdf/profile.cc:16-29 | A profile is created only under a free name inside a group, with the given levels and no layers |
| Profile.CreateKeepsWellFormed | rainhdf/profile.cc:16-29 | Creating a profile keeps every object inside a group |
| Profile.Open | rainhdf/profile.cc:31-92 | An opened profile's product tag must be VP, otherwise it is a product mismatch. A missing group is an open failure. Its layers are found by probing |
| Profile.LayerCount | rainhdf/profile.cc:94-116 | The layer count is the number of data layers plus the number of quality layers |
| Profile.Layer | rainhdf/profile.cc:94-116 | The `i`th layer has the recorded family and quantity and one value per level |
| Profile.LayerByQuantity | rainhdf/profile.cc:118-146 | The lookup opens the first layer holding the quantity, or fails as opening it fails, and gives none without an error when no layer holds it |
| Profile.AddLayer | rainhdf/profile.cc:148-179 | A new layer is numbered one past its family and holds one value per level. The list grows only when it was created |
| Profile.OpenAfterCreate | rainhdf/profile.cc:16-92 | A profile just created opens, with the same levels, as the profile its creation returned |
| Profile.TimesAfterCreate | rainhdf/profile.cc:16-29 | A new profile reads back its start and end instants for non-negative four-digit years |
| Profile.CreatedIsConsistent | rainhdf/profile.cc:16-29 | A new profile is well formed and its empty list is consistent |
| Profile.AddLayerKeepsConsistent | rainhdf/profile.cc:148-179 | Adding a layer to a consistent profile succeeds, keeps it consistent and raises the count by one |
| Volume.OpenLayer | rainhdf/volume.cc:20-36 | A layer opens exactly when its group and "what" group exist and hold a gain and an offset. It is sized azimuths times bins |
| Volume.CreateLayer | rainhdf/volume.cc:38-76 | A layer is created only under a free name inside a group for a quantity with a code; the unknown quantity is a bad value |
| Volume.Read | rainhdf/volume.cc:88-112 | A read needs the array and the right element count. It yields the values and sentinels, or their physical values when calibrated |
| Volume.Write | rainhdf/volume.cc:114-151 | A write fails for a missing array or a wrong element count, and the model refuses a zero gain. It succeeds exactly when, besides, both sentinels can be set; the array then holds the values mapped back through the calibration, and every other object and "what" attribute is unchanged |
| Volume.WriteAfterCreate | rainhdf/volume.cc:88-151 | A layer just created takes any frame of its size, and the frame written reads back |
| Volume.WriteThenRead | rainhdf/volume.cc:88-151 | A frame written to a real-valued layer reads back unchanged, calibrated or not |
| Volume.CreateThenRead | rainhdf/volume.cc:38-112 | A layer just created reads back the frame it was created with |
| Volume.CreateThenOpen | rainhdf/volume.cc:20-76 | A layer just created opens as the layer its creation returned |
| Volume.CreateSweep | rainhdf/volume.cc:153-180 | A scan is created with its extents and no layers, exactly when the scan layout can be added |
| Volume.OpenSweep | rainhdf/volume.cc:182-247 | An opened scan reads its extents as `size_t` and needs the SCAN product tag. Its list decodes the quantities of the layers found and is contiguous |
| Volume.SweepOpenAfterCreate | rainhdf/volume.cc:153-247 | A scan just created opens as the scan its creation returned |
| Volume.SweepCreatedIsConsistent | rainhdf/volume.cc:153-180 | A new scan is well formed and its empty list is consistent |
| Volume.GetLayer | rainhdf/volume.cc:259-279 | The `n`th layer opens at the recorded member with its family and quantity, sized by the scan's extents |
| Volume.FindQuantity | rainhdf/volume.cc:281-307 | The search yields the first layer holding the quantity, and nothing exactly when none holds it |
| Volume.LayerByQuantity | rainhdf/volume.cc:281-307 | The lookup opens the first layer holding the quantity, and gives none without an error when there is none |
| Volume.AddLayer | rainhdf/volume.cc:309-346 | The new layer is appended to the list only when it was created, under the next number of its family |
| Volume.AddLayerKeepsConsistent | rainhdf/volume.cc:309-346 | Adding a layer with a coded quantity to a consistent scan succeeds and keeps it consistent. The layer opens from the list and reads back what was written |
| Volume.Create | rainhdf/volume.cc:348-360 | A new volume writes the site location and has no scans |
| Volume.LocationAfterCreate | rainhdf/volume.cc:348-360 | The site location reads back and no other attribute moves |
| Volume.Highest | rainhdf/volume.cc:362-380 | Probing down from `k` finds the highest scan number present, with none above it |
| Volume.OpenVolume | rainhdf/volume.cc:362-380 | The scan count is at most the root's object count. Scan `count` exists and no scan above it does, up to the object count |
| Volume.ScansCounted | rainhdf/volume.cc:362-380 | A volume holding exactly scans 1 to `n` counts `n` scans |
| Volume.CreateSweepCounted | rainhdf/volume.cc:153-380 | Creating scan `n + 1` in a volume of `n` scans makes an open count `n + 1` |

## Left out

- HDF5 itself is not modelled: handles, property lists, chunking and deflate. Chunk extents and the deflate level are kept as plain array metadata, and property-list failures do not occur.
- The object-count reserve hints (`H5Gget_num_objs` before `reserve`) are left out. They do not change what is opened.
- Floating point is modelled over exact reals. This includes the `float` intermediates of the volume layer and the `1.0f / gain` of its writes. Non-finite values do not occur.
- The copy constructors and assignment operators that throw (rainhdf/volume.cc:78-86, 249-257, 382-385) are left out. A pure value model has no copies to forbid.
- Error messages are left out. Errors are kept as a kind only: open, type, size, value, product or dimension mismatch.
- A failed write leaves no container in the model. Whatever the library had already written before it threw is not modelled.
- The file-level constructor of `base`, which opens or creates the file and its root groups, is not part of this model. `Volume.Create` starts from a root whose "what" and "where" groups exist.
- `size_t` wrap-around of the azimuth count times the bin count is not modelled. The layer size is the exact product.
- The scan's `add_layer` and `layer` in rainhdf/scan.cc call data-layer constructors with argument lists that rainhdf's `data.cc` does not define. They are modelled after the declaration in src/old/scan.h:61, `add_layer(quantity, is_quality, floating_point)`, with the two extents of the scan.
- LayerIndex.Inspect: a scan layer's quantity is kept as its text, as src/old/scan.h:52-68 declares it. rainhdf/scan.cc:79, 102 reads it as the `quantity` enumeration and rainhdf/scan.cc:129-131 compares enumerators, so there two unrecognised codes both read as the unknown quantity and match each other, while here they stay distinct texts. Scan.Open, Scan.LayerQuantity and Scan.LayerByQuantity follow the same choice; Volume.OpenSweep decodes the quantity as volume.cc does.
- volume.h is not part of this model. The volume scan's members are opened in the order of the constructor's initializer list.
- An error from `H5Lexists` while the volume counts its scans is not modelled. Neither is the `(int)` cast of the object count in the probe name: the count is treated as fitting an `int`.
- The C library's `gmtime`, `timegm`, `sprintf` and `sscanf` are replaced by the pure functions of `Calendar`, `Decimal` and `Timestamp`. Only the conversions the time attributes use are covered: `%0<width>d` and `%<width>d`.
- Profile levels come from the caller when a profile is opened, as in rainhdf/profile.cc:31-33. Nothing checks them against the arrays.
- A `char` of a Dafny string stands for one byte of the C string: a multi-byte character counts as several, and no text encoding is modelled.
- DataLayer.Encode: a calibrated write with a gain of zero is refused. The library divides by the gain unchecked (src/old/data.cc:212-215, 249-252, 286-289) and writes the non-finite results, or `lround` of them into an `int` array; exact reals have no infinity to store.
- DataLayer.Write: inherits the zero-gain refusal of DataLayer.Encode.
- Volume.Write: refuses a zero gain, where rainhdf/volume.cc:114-151 writes the non-finite products of `1.0f / gain` without a check.
- Attributes.OneNumber: an array of several elements read or written as one `long` or `double` overruns the single variable in src/old/util.cc:109-121 and 350-382, which check no count. The model refuses it as a size mismatch instead.
- Attributes.GetLong: inherits the size-mismatch refusal of Attributes.OneNumber for arrays of several elements.
- Attributes.GetDouble: inherits the size-mismatch refusal of Attributes.OneNumber for arrays of several elements.
- Attributes.WriteNumber: refuses an in-place write into an array of several elements, where the library's `H5Awrite` reads past its one value.
- DataLayer.CalibratedIntRoundTrip: `int` arrays and sentinels hold unbounded integers. The library narrows each `lround` result into a 32-bit `int` (src/old/data.cc:120-137, 215-221), so a stored value outside that range wraps, and the round trip fails there.
- DataLayer.ReadInt: the `lround` results are not narrowed into a 32-bit `int`.
- Numeric.Truncate: the `(long)` conversion is exact; a real outside the 64-bit `long` range, which C leaves undefined, is not modelled.
- Codes.QuantityCode: rainhdf/util.h:60-86 gives no texts for the quantities, and their definitions are not part of this model. The codes are the enumerators' names without `kQty_`, as ODIM_H5 names them.
- Attributes.GetObject: the enumeration overloads of `GetAtt` are only declared (rainhdf/util.h:191-193). Reading an unrecognised code as the unknown value is this model's choice.
- Attributes.GetProduct: the same declaration-only overload; an unrecognised code reads as the unknown product.
- Attributes.GetQuantity: the same declaration-only overload; an unrecognised code reads as the unknown quantity.
- Attributes.NewCode: the enumeration overloads of `NewAtt` are only declared (rainhdf/util.h:171-173). Refusing the unknown value as a bad value is this model's choice, and Volume.CreateLayer shares it.
- Attributes.SetCode: the enumeration overloads of `SetAtt` are only declared (rainhdf/util.h:181-183); the unknown value is refused as for Attributes.NewCode.
- Node.SetHowAttr: `SetHowAtt` is only declared (rainhdf/util.h:196-199). The model always deletes and recreates the attribute; the numeric `set_att` of src/old/util.cc:350-382 would write an existing one in place and keep its stored type.
- Scan.TimesAfterCreate: stated only for instants whose year is non-negative and prints in four digits (0 to 9999). A wider year is cut by the 16-byte buffer and reads back differently; the years -999 to -1 also fit the buffer but are not covered.
- Profile.TimesAfterCreate: the same non-negative four-digit-year bound as for scans.
- Attributes.TimeRoundTrip: the same non-negative four-digit-year bound.
- Timestamp.DecodeEncode: the same non-negative four-digit-year bound.
- Product.ReadStampedTimes: the same non-negative four-digit-year bound.
- Product.AddLayerKeepsConsistent: stated for gap-free layer lists. A list opened from a file with a gap in its numbering is not covered.
- Volume.WriteThenRead: stated for arrays and sentinels that hold reals. An integer array truncates, and a calibrated integer layer in DataLayer rounds; DataLayer.CalibratedIntRoundTrip bounds that case instead.

## Findings

| source | as written | input that shows it | evidently intended | confidence | as-written member | corrected member |
|---|---|---|---|---|---|---|
| src/old/util.cc:174-193 | The `double` array reader refuses any attribute whose class is not `H5T_INTEGER` | Set `xs = [1.5]` as a `double` array, then read it back with room for one element: the reader reports a type mismatch | Accept floating-point arrays, as the comment above the check says | not executed | Attributes.DoubleArrayAsWrittenRefuses | Attributes.DoubleArrayRoundTrip |
| rainhdf/scan.cc:16-41 | The scan's create constructor writes through its "what" and "where" handles. The `base` create constructor never opens those handles, and no `check_create_what`/`check_create_where` call precedes the writes | Create scan 1 in an empty root group: the first write, of `product`, has no open "what" handle, so creating the scan throws | Create "what" and "where" before writing, as the profile constructor does at rainhdf/profile.cc:25 | not executed | Scan.CreateAsWrittenFails | Scan.OpenAfterCreate |
