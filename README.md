# SSD box core of a Caffe fork, in Dafny

This project models the single-shot-detector (SSD) part of a Caffe fork and proves properties of the model.

- **Box records.** The ground-truth, default-box and prediction records of `box.hpp` are built from flat tensors by `ExtractGroundTruth` and `ExtractPredBoxes`.
- **Matching.**
  - `JaccardOverlap` is D-dimensional intersection over union.
  - `JaccardOverlaps` fills a two-direction overlap table.
  - `MathBoxes` matches ground truths to predictions under the bipartite or the per-prediction policy.
  - `ExtractNegtiveBox` ranks the background candidates.
- **The SSD layer.**
  - The recursive `CalDefaultBox` tiles a D-dimensional grid with anchors and variances.
  - Set-up normalises the box shapes and variances; reshape fixes the channel counts and the def-box top.
- **The multibox loss layer.** It extracts a pyramid of prediction layers per image, runs the per-image pipeline and computes the number of training negatives.
- **The in-memory data layer.** Its batch cursor, its checks and the placement of its labels.
- **The datum helpers of `io.cpp`.** The extension match, the depth table, the label shape and the interleaved-to-planar byte copy of `CVMatToDatum`.
- **The two dataset tools.** `convert_imageset` parses the list file, guesses encodings, checks sizes and batches its puts under line keys. `convert_bacillus_data` covers `swap_endian`, directory listing, separator handling and running keys over a positive and a negative phase.

Representation:

- Tensor values are `real`.
- A tensor is a sequence plus a shape.
- A pointer into a tensor is an offset into an arena: the blob it points into.
- Pointers between records are indices into the record vectors.
- The three layer classes (`SSDLayer`, `MultiBoxLossLayer`, `MemoryDataLayer`) are Dafny classes whose methods update their fields.
- Loops that fill buffers are methods over arrays with loop invariants. Each is proved against a closed-form function.

Modules, one file each:

| module | file |
|---|---|
| `Wrappers` | wrappers.dfy |
| `Index` | index.dfy |
| `Text` | text.dfy |
| `Batching` | batching.dfy |
| `BoxTypes` | box_types.dfy |
| `BoxExtract` | box_extract.dfy |
| `Jaccard` | jaccard.dfy |
| `Overlap` | overlaps.dfy |
| `Matching` | matching.dfy |
| `Negatives` | negatives.dfy |
| `DefaultBoxes` | default_boxes.dfy |
| `SsdLayer` | ssd_layer.dfy |
| `MultiBoxLoss` | multibox_loss.dfy |
| `DatumIo` | datum_io.dfy |
| `MemoryData` | memory_data_layer.dfy |
| `ConvertImageset` | convert_imageset.dfy |
| `ConvertBacillus` | convert_bacillus.dfy |

Where the source has an evident defect, the model follows the evident intent and the comment there cites the line. Each such defect has either a row under "## Findings" or a line under "## Left out". A Findings row names an as-written member with a lemma that exhibits the defect, and the corrected member the model uses.

## Model

| member | source | states |
|---|---|---|
| Text.ToLower | src/caffe/util/io.cpp:120-121 | lowering keeps the length, leaves no upper-case letter, keeps every other character and moves each upper-case letter by 32 |
| Text.ToLowerIdempotent | tools/convert_imageset.cpp:156 | lowering twice is lowering once |
| Text.LastIndexOf | src/caffe/util/io.cpp:118 | `rfind`: a found position holds the character and none after it does; npos exactly when the character is absent |
| Text.TokensSplit | tools/convert_imageset.cpp:94-98 | splitting a line on ' ' gives non-empty, space-free tokens whose concatenation is the line without its spaces |
| Text.FormatInt | tools/convert_imageset.cpp:180-181 | `format_int(n, w)` is all digits, of length w or of n's own digit count when that is longer |
| Text.FormatIntRoundTrip | tools/convert_imageset.cpp:180-181 | reading a formatted key back as a decimal gives the number |
| Text.FormatIntInjective | windows/convert_bacillus_data/convert_bacillus_data.cpp:119-143 | distinct numbers get distinct keys |
| Text.AtoiRoundTrip | tools/convert_imageset.cpp:102 | `atoi` reads back every integer written in decimal, negative ones with a '-' |
| Batching.ChunkStep | tools/convert_imageset.cpp:188-193 | one more put joins the open transaction, which is committed exactly when the put count reaches a multiple of the batch size |
| Batching.ChunkedCover | tools/convert_imageset.cpp:188-199 | every put lands in exactly one commit, in order; no commit is empty; all commits but the last hold exactly the batch size and the last at most that |
| BoxExtract.GroundTruthCell | src/caffe/util/box.cpp:25-48 | the record of cell i of image n: its label pointer, D minimum and D maximum pointers at channels d and D+d |
| BoxExtract.ExtractGroundTruth | src/caffe/util/box.cpp:6-49 | fails exactly when the shape checks fail; otherwise one record per image and cell, each the closed-form ground-truth box |
| BoxExtract.CellOffsetInjective | src/caffe/util/box.cpp:40-44 | distinct (image, channel, cell) triples address distinct elements |
| BoxExtract.GroundTruthRefsValid | src/caffe/util/box.cpp:36-48 | every label, minimum and maximum pointer of every ground-truth record lies inside its blob |
| BoxExtract.NewDefBox | src/caffe/util/box.cpp:131-144 | the default box of (cell, kind) points at plane 0 for its coordinates and plane 1 for its variances |
| BoxExtract.NewDRBox | src/caffe/util/box.cpp:147-161 | the prediction of class c points at its location and confidence elements and names its default box |
| BoxExtract.LinkClasses | src/caffe/util/box.cpp:145-166 | every class gains the prediction of the newest default box, which lists them all |
| BoxExtract.AddSlot | src/caffe/util/box.cpp:131-166 | one (cell, kind) step appends its default box and one prediction per class, linked |
| BoxExtract.ExtractImage | src/caffe/util/box.cpp:129-168 | one image gains exactly the layer's default boxes and predictions, in loop order |
| BoxExtract.CheckPredShapes | src/caffe/util/box.cpp:62-88 | passes exactly when the axis, batch, channel and spatial checks hold |
| BoxExtract.CheckChannels | src/caffe/util/box.cpp:70-81 | passes exactly when the channel counts are divisible as the layout requires and agree with the class count |
| BoxExtract.CheckDRClasses | src/caffe/util/box.cpp:116-123 | passes exactly when every image's prediction vector is empty or holds one list per class |
| BoxExtract.ExtendImages | src/caffe/util/box.cpp:128-169 | every image gains the layer's default boxes and predictions |
| BoxExtract.ExtractPredBoxes | src/caffe/util/box.cpp:56-170 | a result exactly when the checks pass; it is the batch size and every image grown by the closed-form records of the layer |
| BoxExtract.ExtractPredBoxesLinked | include/caffe/util/box.hpp:35-43 | every returned prediction names the default box it was decoded from, and that default box lists it |
| BoxExtract.FreshImageLinked | src/caffe/util/box.cpp:116-119 | a freshly resized image with empty class lists is linked |
| BoxExtract.SlotOffsetsBounded | src/caffe/util/box.cpp:150-161 | the default, variance, location and confidence offsets of a slot lie inside their blobs |
| BoxExtract.LocOffsetInjective | src/caffe/util/box.cpp:150-157 | with unshared locations, distinct predictions have distinct location pointers |
| BoxExtract.ConfOffsetInjective | src/caffe/util/box.cpp:160-161 | distinct predictions, of one image or of different images, have distinct confidence pointers |
| Jaccard.OverlapWithinSides | src/caffe/util/box.cpp:193-200 | along each dimension the intersection is no longer than either side |
| Jaccard.JaccardOverlap | src/caffe/util/box.cpp:185-211 | fails exactly on a dimension mismatch; otherwise it is the intersection over union of the corners the pointers name |
| Jaccard.VolumeMono | src/caffe/util/box.cpp:202-209 | shrinking every side shrinks the volume, strictly when one side shrinks |
| Jaccard.UnionCoversIntersection | src/caffe/util/box.cpp:206-210 | the union is positive and at least the intersection, and the intersection is at most either volume |
| Jaccard.IouSymmetric | src/caffe/util/box.cpp:185-211 | the overlap does not depend on the order of the boxes |
| Jaccard.IouRange | src/caffe/util/box.cpp:185-211 | boxes overlapping in every dimension score in (0, 1]; the others score 0 |
| Jaccard.IouOne | src/caffe/util/box.cpp:185-211 | the overlap is 1 exactly when the two boxes are the same non-degenerate box |
| Jaccard.IouSelf | src/caffe/util/box.cpp:185-211 | a non-degenerate box overlaps itself completely |
| Overlap.MirrorInvolution | src/caffe/util/box.cpp:236-237 | mirroring the (class, gt, pred) table twice gives it back |
| Overlap.OverlapClass | src/caffe/util/box.cpp:231-238 | one ground truth and one class add exactly the entries for that class's predictions, in both directions; fails exactly when a box does not compare |
| Overlap.OverlapGroundTruth | src/caffe/util/box.cpp:225-240 | a labelled ground truth adds its entries for every class; fails exactly when a box does not compare; the second direction stays the mirror |
| Overlap.JaccardOverlaps | src/caffe/util/box.cpp:217-244 | completes exactly when no labelled ground truth is the background and all boxes compare; the table then holds one entry per labelled ground truth, class and prediction with their Jaccard overlap, and nothing else, and the second direction is its mirror |
| Overlap.Table | src/caffe/util/box.cpp:217-244 | the closed-form table meets the table specification, and its keys index real classes, ground truths and predictions |
| Overlap.TableUnique | src/caffe/util/box.cpp:217-244 | the table is determined by the records: any table meeting the specification is the closed form |
| Overlap.TableAgrees | src/caffe/util/box.cpp:236-237 | every stored overlap lies in [0, 1], and the two directions hold the same entries with the same values |
| Matching.RowKeys | src/caffe/util/box.cpp:262-265 | the list of a class's ground truths is their keys in order, without repeats |
| Matching.ScanIsBest | src/caffe/util/box.cpp:267-289 | one round's scan chooses an unmatched pair of greatest overlap, the last such pair in scan order (`>=`); when it chooses none, every unmatched pair is negative and the maximum stays 0 |
| Matching.BestPair | src/caffe/util/box.cpp:267-289 | the loops compute the round's scan: an unmatched pair that no candidate pair overlaps more, or no choice when every candidate is negative |
| Matching.ClassMatchesMatched | src/caffe/util/box.cpp:261-293 | when every round of a class succeeds, each ground truth with a row gets its own new prediction of the class at an overlap reaching the threshold, and earlier matches are kept |
| Matching.MatchClass | src/caffe/util/box.cpp:261-293 | fails exactly when a round's best overlap is below the threshold (line 281) or no unmatched pair is left; otherwise the table is the greedy rounds' result, each round matching the best remaining pair |
| Matching.BipartiteMatched | src/caffe/util/box.cpp:258-294 | a successful bipartite matching keeps every match at or above the threshold, matches every ground truth with a row in its class, and never gives two predictions of a class the same ground truth |
| Matching.MatchBipartite | src/caffe/util/box.cpp:258-294 | fails exactly when the greedy rounds of some class fail; otherwise the table is the greedy rounds of every class in order, with the properties of BipartiteMatched |
| Matching.BestGtIsFirstMax | src/caffe/util/box.cpp:300-312 | the per-prediction choice is the first ground truth of greatest positive overlap |
| Matching.MatchPerPrediction | src/caffe/util/box.cpp:296-317 | a prediction is matched exactly when it has overlaps and its best one reaches the threshold, and then to the first ground truth of that overlap |
| Matching.PerPredictionMeaning | src/caffe/util/box.cpp:296-317 | a prediction is matched exactly when its greatest overlap reaches the threshold, then to the first ground truth with that overlap |
| Matching.PerPredictionUnmatched | src/caffe/util/box.cpp:313-316 | an unmatched prediction has every overlap below the threshold |
| Matching.MathBoxes | src/caffe/util/box.cpp:255-321 | the bipartite policy fails exactly when the greedy rounds over the (class, gt, pred) table fail, and otherwise gives their table; the per-prediction policy always completes and matches a prediction exactly when its best overlap in the other table reaches the threshold, to the first ground truth of that overlap; any other match type fails |
| Negatives.ArgMaxIsFirstMax | src/caffe/util/box.cpp:340-351 | the winning class is the first one of greatest confidence |
| Negatives.InsertSorted | src/caffe/util/box.cpp:353-362 | insertion keeps the list non-increasing and adds exactly the new entry |
| Negatives.InsertMultiset | src/caffe/util/box.cpp:353-362 | insertion adds exactly the new entry, whatever the order |
| Negatives.KeptHolds | src/caffe/util/box.cpp:350-352 | a position is kept exactly when its winning class is not the background |
| Negatives.RankedMeaning | src/caffe/util/box.cpp:339-363 | the internal list is non-increasing and is a permutation of the kept positions |
| Negatives.ExtractNegatives | src/caffe/util/box.cpp:333-370 | fails exactly on an empty class list, a background outside the classes or a length mismatch; otherwise the result is the ranked list reversed |
| Negatives.NegativesMeaning | src/caffe/util/box.cpp:366-368 | the result runs from least to most confident and holds exactly the positions won by a class other than the background |
| Negatives.KeptIsNegative | src/caffe/util/box.cpp:339-368 | a position won by a class other than the background appears in the result |
| Negatives.NegativeIsKept | src/caffe/util/box.cpp:339-368 | every position in the result is won by a class other than the background |
| DefaultBoxes.RestProd | src/caffe/layers/ssd_layer.cpp:52-55 | the cell count is the product of the grid's extents |
| DefaultBoxes.AnchorGeometry | src/caffe/layers/ssd_layer.cpp:19-22 | each anchor is as long as the box size and centred on its cell |
| DefaultBoxes.PosInjective | src/caffe/layers/ssd_layer.cpp:35-36 | two coordinates of a slab share a position only when they are the same |
| DefaultBoxes.WriteAxisAt | src/caffe/layers/ssd_layer.cpp:33-40 | one iteration writes axis i of the cell and its variances, and nothing else |
| DefaultBoxes.WriteCell | src/caffe/layers/ssd_layer.cpp:32-41 | the leaf loop writes exactly the cell's coordinates and variances |
| DefaultBoxes.CalDefaultBoxDim | src/caffe/layers/ssd_layer.cpp:11-44 | the recursion at a dimension writes exactly the cells of its subtree, each to its closed form |
| DefaultBoxes.CalDefaultBoxStep | src/caffe/layers/ssd_layer.cpp:18-42 | iteration len writes exactly the cells of its child subtree |
| DefaultBoxes.SlabStep | src/caffe/layers/ssd_layer.cpp:58-63 | writing slab s keeps the earlier slabs and the later positions |
| DefaultBoxes.Locate | src/caffe/layers/ssd_layer.cpp:56-63 | every position of a plane is (shape, coordinate, cell) by division, and back |
| DefaultBoxes.SlabsBlob | src/caffe/layers/ssd_layer.cpp:58-63 | once every slab is written the blob is the closed form, whatever it held before |
| DefaultBoxes.ChannelOffset | src/caffe/layers/ssd_layer.cpp:52-55 | the channel offset is the product of the grid extents |
| DefaultBoxes.CalDefaultBoxSlab | src/caffe/layers/ssd_layer.cpp:58-63 | iteration i writes slab i of both planes and keeps everything else |
| DefaultBoxes.CalDefaultBoxes | src/caffe/layers/ssd_layer.cpp:46-64 | fails exactly on a dimension mismatch; otherwise the whole blob is the closed form |
| DefaultBoxes.EveryCellOnce | src/caffe/layers/ssd_layer.cpp:18-29 | the recursion from the top visits every cell exactly once, in order |
| SsdLayer.BoxShapesCount | src/caffe/layers/ssd_layer.cpp:80-105 | one shape per side ratio, each with one extent per dimension |
| SsdLayer.ShapeVolume | src/caffe/layers/ssd_layer.cpp:93-102 | normalisation keeps the volume: the extents multiply to size^D |
| SsdLayer.ShapeAspect | src/caffe/layers/ssd_layer.cpp:93-102 | normalisation keeps the aspect: extent i over extent j is ratio i over ratio j |
| SsdLayer.BoxShape | src/caffe/layers/ssd_layer.cpp:89-103 | fails exactly on a wrong ratio count or a non-positive ratio; otherwise the shape is the ratios scaled to the box size and normalised |
| SsdLayer.Resize | src/caffe/layers/ssd_layer.cpp:108-110 | `resize` keeps the first n entries and pads with the fill value |
| SsdLayer.CopyVariances | src/caffe/layers/ssd_layer.cpp:112-116 | every given variance is checked positive and copied over the default at its position |
| SsdLayer.VariancesShape | src/caffe/layers/ssd_layer.cpp:108-122 | on success there is one variance per coordinate: the given ones when several are given, the single given one repeated when one is given, and positive defaults otherwise |
| SsdLayer.VariancesFail | src/caffe/layers/ssd_layer.cpp:111-122 | set-up fails exactly on a wrong count or a non-positive variance |
| SsdLayer.OutputsAccepted | src/caffe/layers/ssd_layer.cpp:130-134 | the channel counts the layer produces pass the checks of ExtractPredBoxes exactly when locations are shared or there is more than one class |
| SsdLayer.ReshapeCount | src/caffe/layers/ssd_layer.cpp:213-218 | a passing reshape gives a def-box top of 2 * 2DK * cells entries, with at least one dimension and one shape |
| SsdLayer.SSDLayer.AddDefaultBox | src/caffe/layers/ssd_layer.cpp:81-104 | the default box's shapes are appended to the layer's shapes |
| SsdLayer.SSDLayer.SetVariances | src/caffe/layers/ssd_layer.cpp:108-122 | the variances become the set-up result, or the layer reports failure |
| SsdLayer.SSDLayer.SetBoxShapes | src/caffe/layers/ssd_layer.cpp:80-105 | the layer's shapes become those of every default box in order |
| SsdLayer.SSDLayer.SetUpCounts | src/caffe/layers/ssd_layer.cpp:127-134 | passes exactly with 2 or 3 bottoms, a location bottom of D spatial axes after `axis` and 3 tops; then the def, location and confidence channel counts are set |
| SsdLayer.SSDLayer.LayerSetUp | src/caffe/layers/ssd_layer.cpp:68-192 | succeeds exactly when the range is positive and the shapes, variances and counts pass, and records all of them |
| SsdLayer.SSDLayer.Reshape | src/caffe/layers/ssd_layer.cpp:194-234 | passes exactly when the shape checks do; the def-box top has shape [2, 2DK, spatial...] and holds the closed-form anchors and variances |
| SsdLayer.DefTop | src/caffe/layers/ssd_layer.cpp:213-218 | the def-box top shape is [2, 2DK] followed by the location top's spatial axes |
| SsdLayer.CheckShapes | src/caffe/layers/ssd_layer.cpp:199-230 | passes exactly when the axis counts agree, the spatial axes agree and every axis is positive |
| MultiBoxLoss.Step | src/caffe/util/box.cpp:89-169 | one ExtractPredBoxes call keeps one entry per image and one prediction list per class in every image |
| MultiBoxLoss.Pyramid | src/caffe/layers/multibox_loss_layer.cpp:43-47 | extracting the first L layers keeps one entry per image and one list per class, or fails |
| MultiBoxLoss.PyramidFailureStays | src/caffe/layers/multibox_loss_layer.cpp:43-47 | once a layer fails the whole extraction fails |
| MultiBoxLoss.PyramidNext | src/caffe/layers/multibox_loss_layer.cpp:43-47 | the extraction of L+1 layers is one ExtractPredBoxes call on that of L layers |
| MultiBoxLoss.PyramidLinked | src/caffe/layers/multibox_loss_layer.cpp:43-47 | across all pyramid layers every prediction names its default box, which lists it |
| MultiBoxLoss.PyramidPrefix | src/caffe/layers/multibox_loss_layer.cpp:43-47 | a completed extraction completed every shorter prefix |
| MultiBoxLoss.PyramidReadable | src/caffe/layers/multibox_loss_layer.cpp:43-47 | every pointer of every prediction record stays inside its blob |
| MultiBoxLoss.RecordsReadable | src/caffe/layers/multibox_loss_layer.cpp:36-47 | every pointer of the records Reshape leaves stays inside its blob |
| MultiBoxLoss.GroundTruthReadable | src/caffe/layers/multibox_loss_layer.cpp:37 | every pointer of every ground-truth record stays inside its blob |
| MultiBoxLoss.ExtractLayer | src/caffe/layers/multibox_loss_layer.cpp:45 | one call appends layer `layer`'s records to the records before |
| MultiBoxLoss.ExtractPyramid | src/caffe/layers/multibox_loss_layer.cpp:43-47 | the loop's result is the pyramid extraction |
| MultiBoxLoss.ExtractRecords | src/caffe/layers/multibox_loss_layer.cpp:36-47 | ground truth from the last two bottoms, the threes check, then every pyramid layer |
| MultiBoxLoss.BottomRoles | src/caffe/layers/multibox_loss_layer.cpp:38-45 | the bottoms split exactly into L triples and the two ground-truth bottoms, each with one role |
| MultiBoxLoss.TrainCount | src/caffe/layers/multibox_loss_layer.cpp:72-77 | at least the minimum and at least the clamped ratio-based count, and one of the two; at most the available negatives when the ratio is positive and the minimum allows it |
| MultiBoxLoss.Clamped | src/caffe/layers/multibox_loss_layer.cpp:72-75 | the ratio count, at most the available negatives when the ratio is positive |
| MultiBoxLoss.RatioCount | src/caffe/layers/multibox_loss_layer.cpp:72 | truncation of matched * ratio + 0.5: the nearest integer, halves up, for a non-negative ratio |
| MultiBoxLoss.MultiBoxLossLayer.LayerSetUp | src/caffe/layers/multibox_loss_layer.cpp:21-30 | records the parameters; succeeds exactly when the background label is positive |
| MultiBoxLoss.MultiBoxLossLayer.Reshape | src/caffe/layers/multibox_loss_layer.cpp:34-51 | the records are the ground truth and pyramid extraction of the bottoms, or the reshape fails |
| MultiBoxLoss.MultiBoxLossLayer.Forward | src/caffe/layers/multibox_loss_layer.cpp:54-91 | the per-image pipeline over every image, in order, up to the first failure |
| MultiBoxLoss.ForwardImage | src/caffe/layers/multibox_loss_layer.cpp:61-77 | passes exactly when the image passes the checks and, under the bipartite policy, the greedy rounds over its overlap table succeed; on success the overlap table, the matches (the greedy rounds, or the per-prediction table), the negatives and the training count are those of the pipeline on the image's own records |
| MultiBoxLoss.ForwardImages | src/caffe/layers/multibox_loss_layer.cpp:61-89 | the results of the images before the first failure, each the image's own pipeline |
| MultiBoxLoss.TableBounds | src/caffe/util/box.cpp:229-237 | the overlap table's keys index real classes, ground truths and predictions |
| DatumIo.ElemSize | src/caffe/util/io.cpp:376-404 | the element size is the byte width of the depth's C type; any other depth fails |
| DatumIo.LabelShapeOf | src/caffe/util/io.cpp:156-190 | the label shape has the depth, height and width 1 and as many channels as whole elements fit; an unknown depth fails |
| DatumIo.Extension | src/caffe/util/io.cpp:118-119 | the suffix from the last '.', dot included, or the whole name when there is no dot |
| DatumIo.MatchExtOfGuess | src/caffe/util/io.cpp:116-127 | the encoding guessed from a dotted name always matches that name |
| DatumIo.MatchExtNeedsDot | src/caffe/util/io.cpp:122-125 | a dotted name matches only encodings starting with '.', never the "jpg" alias |
| DatumIo.MatchExtIgnoresCase | src/caffe/util/io.cpp:120-121 | case never matters on the encoding side |
| DatumIo.DatumIndexInjective | src/caffe/util/io.cpp:423 | distinct bytes go to distinct planar positions |
| DatumIo.ImageIndexInjective | src/caffe/util/io.cpp:422 | distinct bytes come from distinct interleaved positions |
| DatumIo.DatumIndexOnto | src/caffe/util/io.cpp:423 | every planar position belongs to some byte |
| DatumIo.ImageIndexOnto | src/caffe/util/io.cpp:422 | every interleaved position is the source of some byte |
| DatumIo.PlanarUnique | src/caffe/util/io.cpp:417-428 | the planar buffer is determined by the image: two buffers that hold the planar copy of one image are equal, whatever they were filled with |
| DatumIo.PlanarKeepsEveryByte | src/caffe/util/io.cpp:418-428 | every image byte appears in the planar buffer |
| DatumIo.CopyPixel | src/caffe/util/io.cpp:420-426 | every byte of every channel of pixel (h, w) lands at its planar position |
| DatumIo.CVMatToDatum | src/caffe/util/io.cpp:372-431 | fails exactly on an unknown depth; otherwise not encoded, the shape and the planar buffer in the label or the data fields |
| MemoryData.CRem | src/caffe/layers/memory_data_layer.cpp:39 | C++ `%`: Euclidean on non-negative operands, taking the sign of the dividend |
| MemoryData.WrittenPlaces | src/caffe/layers/memory_data_layer.cpp:60-62 | label element id of item k sits at k*size + id |
| MemoryData.ShapedLabelsFit | src/caffe/util/io.cpp:188-190 | labels shaped as io.cpp shapes them always fit the reshaped label blob |
| MemoryData.CopyItem | src/caffe/layers/memory_data_layer.cpp:55-113 | passes exactly when the item's shape agrees and fits; then its elements are written at k*count + id |
| MemoryData.CopyLabels | src/caffe/layers/memory_data_layer.cpp:53-120 | fails exactly when some item breaks the checks; otherwise every item's elements are written in order |
| MemoryData.AdvanceKeepsCursor | src/caffe/layers/memory_data_layer.cpp:186-188 | the cursor stays a batch multiple below n, moves one batch, and wraps to 0 exactly after the last batch |
| MemoryData.ServedInside | src/caffe/layers/memory_data_layer.cpp:184 | the batch served lies inside the data array |
| MemoryData.PassServesEachBatch | src/caffe/layers/memory_data_layer.cpp:184-188 | the j-th Forward of a pass serves batch j, and the cursor is back at 0 after n/batch calls |
| MemoryData.ServedLabelsOfBatch | src/caffe/layers/memory_data_layer.cpp:185 | with the item's label stride, the labels served are that item's own |
| MemoryData.MemoryDataLayer.DataLayerSetUp | src/caffe/layers/memory_data_layer.cpp:12-31 | records the geometry; passes exactly when batch size times item size is positive and no dimension is negative (the reshapes of lines 23-26); a refusal keeps both arrays |
| MemoryData.MemoryDataLayer.Reset | src/caffe/layers/memory_data_layer.cpp:154-167 | passes exactly when both arrays are given and the count is a batch multiple; the cursor restarts at 0 |
| MemoryData.MemoryDataLayer.AddDatumVector | src/caffe/layers/memory_data_layer.cpp:34-125 | refused while data is pending or the count is not a positive batch multiple or a label breaks the checks, and then nothing changes; otherwise the labels are placed and a pass is pending; the batch size and geometry stay |
| MemoryData.MemoryDataLayer.SetBatchSize | src/caffe/layers/memory_data_layer.cpp:170-176 | refused while a pass is pending, with nothing changed; otherwise the batch size is stored, and the reshape of lines 174-175 then refuses a negative dimension; the arrays, cursor, item size, label stride and geometry always stay |
| MemoryData.MemoryDataLayer.Forward | src/caffe/layers/memory_data_layer.cpp:179-189 | refuses without arrays, on a negative dimension (the reshapes of lines 181-182) or with no items; otherwise serves the batch at the cursor, advances it modulo n, and ends the pass exactly when it wraps to 0 |
| ConvertImageset.ParseLabels | tools/convert_imageset.cpp:100-105 | every token after the first is parsed as an int or a float by the label type; any other type collects nothing |
| ConvertImageset.ParseList | tools/convert_imageset.cpp:90-112 | the int and float entry lists are those of the lines, each entry with its own line's labels |
| ConvertImageset.EntriesWellFormed | tools/convert_imageset.cpp:107-111 | every entry names a non-empty, space-free file and has one label per further token; only the chosen type's list is filled |
| ConvertImageset.ClampResize | tools/convert_imageset.cpp:126-127 | the extent is at least 0 and at least the flag, and is the flag or 0 |
| ConvertImageset.GuessEncoding | tools/convert_imageset.cpp:152-156 | a guess exactly when the name has a '.': its lowered extension, which matches the name |
| ConvertImageset.KeysDistinct | tools/convert_imageset.cpp:180-181 | keys of different lines differ, whatever the file names |
| ConvertImageset.Puts | tools/convert_imageset.cpp:166-186 | one put per readable line, keyed by its line, in increasing line order |
| ConvertImageset.PutKeysDistinct | tools/convert_imageset.cpp:180-186 | no two puts share a key |
| ConvertImageset.CheckSize | tools/convert_imageset.cpp:167-177 | the first read datum fixes the reference size and each later one must match it |
| ConvertImageset.WriteEntries | tools/convert_imageset.cpp:144-199 | succeeds exactly when every guess and size check passes; the commits are the puts in batches of 1000 plus the remainder. On an abort it names the first failing line, and the commits already made are the full batches of 1000 of the puts before that line |
| ConvertImageset.WriteLine | tools/convert_imageset.cpp:144-193 | one line aborts exactly when its encoding guess or size check fails; otherwise the open transaction and the reference size advance past it |
| ConvertImageset.ConvertImageset | tools/convert_imageset.cpp:90-199 | parse, then write the chosen type's entries, with the commits of WriteEntries, including those made before an abort |
| ConvertBacillus.SwapEndian | windows/convert_bacillus_data/convert_bacillus_data.cpp:38-41 | the result's bytes are the value's bytes reversed |
| ConvertBacillus.SwapEndianInvolution | windows/convert_bacillus_data/convert_bacillus_data.cpp:38-41 | swapping twice restores the value |
| ConvertBacillus.WithSlash | windows/convert_bacillus_data/convert_bacillus_data.cpp:56-57 | the name ends in a separator, extends the original by at most one '/', and is unchanged exactly when it already ended in one |
| ConvertBacillus.WithSlashIdempotent | windows/convert_bacillus_data/convert_bacillus_data.cpp:98-99 | normalising twice is normalising once |
| ConvertBacillus.SearchPattern | windows/convert_bacillus_data/convert_bacillus_data.cpp:54-61 | none exactly for an empty directory; otherwise the directory, a separator, '*' and the extension or ".*" |
| ConvertBacillus.FindFineName | windows/convert_bacillus_data/convert_bacillus_data.cpp:50-89 | an empty directory lists nothing; otherwise sub-directories and files in order, without "." and ".." |
| ConvertBacillus.ListingSplits | windows/convert_bacillus_data/convert_bacillus_data.cpp:68-83 | a name is listed as a file exactly when a non-directory entry other than "." and ".." has it, and as a folder exactly when such a directory entry has it; there are no more names than entries |
| ConvertBacillus.PhaseKeys | windows/convert_bacillus_data/convert_bacillus_data.cpp:116-123 | the k-th put of a phase has key base + k and the phase's label |
| ConvertBacillus.RunningKeys | windows/convert_bacillus_data/convert_bacillus_data.cpp:109-147 | keys run 0, 1, 2, ... across both phases, are distinct and read back as positions; positives get label 1 and negatives 0 |
| ConvertBacillus.Phase | windows/convert_bacillus_data/convert_bacillus_data.cpp:110-132 | the phase's commits are its puts in batches of 200 plus the remainder, and the count is the number of puts |
| ConvertBacillus.ConvertDataset | windows/convert_bacillus_data/convert_bacillus_data.cpp:94-158 | fails exactly on an empty directory name; otherwise the positive phase's commits then the negative phase's, keys continuing from the positive count |

## Findings

| source | as written | input that shows it | evidently intended | confidence | as-written member | corrected member |
|---|---|---|---|---|---|---|
| src/caffe/util/box.cpp:28,40,44 | the label and location pointers omit the image offset | a batch of two images: image 1's boxes point at image 0's values | add `n * channels * cells` | not executed | BoxExtract.AsWrittenGroundTruthShared | BoxExtract.ExtractGroundTruth |
| src/caffe/util/box.cpp:89-100 | `!empty()` resizes a non-empty vector and demands that an empty one already holds `num` images | the first call, with empty vectors and num = 1 | resize an empty vector, check a non-empty one | not executed | BoxExtract.AsWrittenEmptyRejected | BoxExtract.ExtractPredBoxes |
| src/caffe/util/box.cpp:145-165 | records go to `def_boxes[num]` and `dr_boxes[num]`, one past the end | any batch: index num of num images | index image n | not executed | BoxExtract.AsWrittenImageIndexPastEnd | BoxExtract.ExtractImage |
| src/caffe/util/box.cpp:152,157 | the location index adds the kind offset twice and steps classes by one cell plane | two classes, one dimension, one kind, one cell: class 1's minimum and class 0's maximum share a pointer | kind-major, then class, then coordinate | not executed | BoxExtract.AsWrittenLocIndexCollides | BoxExtract.LocOffsetInjective |
| src/caffe/util/box.cpp:152,157,160 | the location and confidence indices have no image term | a batch of two images: image 1's predictions point at image 0's values | add `n` times the blob's per-image size | not executed | BoxExtract.AsWrittenPredsShared | BoxExtract.ConfOffsetInjective |
| src/caffe/util/box.cpp:163-165 | the link to a new prediction indexes its class list at `dr_boxes.size()`, the image count | one image: the first prediction of a class is linked at index 1 of a one-entry list | index the class list's last entry | not executed | BoxExtract.AsWrittenLinkPastEnd | BoxExtract.LinkClasses |
| src/caffe/util/box.cpp:234 | the prediction is read at the ground truth's index | ground truth 0 of a class with two predictions reaches only prediction 0 | read prediction j | not executed | Overlap.AsWrittenOverlapRow | Overlap.JaccardOverlaps |
| src/caffe/util/box.cpp:284 | the outer iterator is recorded, so the last remaining ground truth is matched | one prediction overlapping ground truths 0 and 1 by 0.9 and 0.1: ground truth 1 is matched | record the ground truth of the best pair | not executed | Matching.AsWrittenRoundMismatch | Matching.MatchClass |
| src/caffe/layers/ssd_layer.cpp:121 | a single given variance is never applied | two dimensions, variance 0.1: two ones stay, and lines 39-40 then read `variances[2]` and `variances[3]` past the end | fill every coordinate with the single variance | not executed | SsdLayer.AsWrittenSingleVarianceIgnored | SsdLayer.VariancesShape |
| src/caffe/layers/ssd_layer.cpp:134 | the confidence channel count multiplies by the classes where ExtractPredBoxes expects kinds times classes | one dimension, one shape, two classes, unshared: 4 channels where 2 are expected | kinds times classes | not executed | SsdLayer.AsWrittenConfRejected | SsdLayer.OutputsAccepted |
| src/caffe/layers/multibox_loss_layer.cpp:77 | the ratio-based count is overwritten by the available negatives | one match, ratio 3, ten negatives: ten are trained | keep the ratio-based count, at least the minimum | not executed | MultiBoxLoss.AsWrittenTrainCountIgnoresRatio | MultiBoxLoss.TrainCount |
| src/caffe/layers/memory_data_layer.cpp:185 | labels are served from `labels_ + pos_`, one element per item | two items of two labels, batch 1: the second Forward serves item 0's second label | offset by pos times the labels per item | not executed | MemoryData.LabelStrideFinding | MemoryData.ServedLabelsOfBatch |
| src/caffe/layers/memory_data_layer.cpp:60-62 | the label loop counts bytes where the blob holds elements | one 16-bit label element: two values go into a one-element blob | count elements (bytes over the element size) | not executed | MemoryData.ByteCountFinding | MemoryData.CopyLabels |
| tools/convert_imageset.cpp:162-165 | the float branch reads `int_lines` | any float list: `int_lines` is empty, so every read is past its end | read `float_lines` | not executed | ConvertImageset.FloatBranchFinding | ConvertImageset.WriteEntries |
| windows/convert_bacillus_data/convert_bacillus_data.cpp:100 | the negative name is indexed at the positive name's last position | positive "p/", negative "ab/": "ab//"; positive "abcd/", negative "ab": past the end | test the negative name's own last character | not executed | ConvertBacillus.NegDirFinding | ConvertBacillus.ConvertDataset |

## Left out

- Blob storage, `cpu_data` and GPU synchronisation: tensors are sequences with a shape.
- Floating-point width and rounding: values are `real`. The D-th root of ssd_layer.cpp:99 is a parameter required to be a positive D-th root.
- 32-bit overflow of the source's `int` index arithmetic: indices are unbounded.
- OpenCV image reading, resizing and encoding, protobuf serialisation, LMDB/LevelDB transactions, gflags and glog. `ReadImageToDatum` becomes a given sequence of read results in both tools, including its fixed 40x40 resize and the label byte layout in convert_bacillus_data.cpp. `_findfirst`/`_findnext` become a given sequence of directory entries.
- `atof` is a parameter of the list parser; `atoi` is modelled.
- The byte reinterpretation of label buffers in memory_data_layer.cpp:63-111 is an abstract decoder.
- The shuffle of convert_imageset.cpp:113-118 is random: entries are written in list order.
- A committed transaction is taken to start empty in convert_bacillus_data.cpp, which never calls `reset` after a commit.
- The convolution sub-layers of ssd_layer.cpp (lines 136-192, 211-212 and 238-260) delegate to a layer registry outside the model.
- MultiBoxLoss.MultiBoxLossLayer.Forward stops after the training-negative count: lines 78-88 do not compile, and `Backward_cpu` is empty.
- SsdLayer.SSDLayer.Reshape passes the def-box top's spatial shape as the grid, where line 233 passes `def_loc_shape_`, a member nothing assigns. There is no as-written member for it.
- MultiBoxLoss.MultiBoxLossLayer.Reshape passes the extracted default boxes, where the call at line 45 omits the `def_boxes` argument that ExtractPredBoxes declares.
- BoxExtract.ExtractPredBoxesLinked states the intended links as indices into the records. box.cpp:162 and 165 store raw pointers into `def_boxes[num]` and `dr_boxes[num][c]`, which the later `push_back`s of lines 146 and 164 may reallocate, so as written earlier links can dangle. Nothing in the core reads these links.
- MemoryData.MemoryDataLayer.SetBatchSize models only the non-negativity check of the reshapes of lines 174-175, not the blobs' contents. A batch size changed between passes can leave the cursor off a batch boundary, which the model does not exclude.
- MemoryData.MemoryDataLayer.AddDatumVector takes the transformed images as a parameter: the data transformer is outside the model.
- MultiBoxLoss.MultiBoxLossLayer.LayerSetUp takes `neg_pos_ratio_` and `min_negtive_` from the parameter message. multibox_loss_layer.cpp:21-30 never assigns them, so as written they are indeterminate, which the model does not capture.
- MultiBoxLoss.MultiBoxLossLayer.Forward requires at least `num` ground-truth images. Line 66 indexes `gt_boxes_[n]` without a check, which is undefined behaviour with fewer.
- SsdLayer.SSDLayer.LayerSetUp stops on a zero or negative range dimension, which ssd_layer.cpp:73-77 accepts. CalDefaultBox divides by the range (lines 16 and 21-22): a zero gives infinities or NaN, which reals do not have, and a negative one gives mirrored anchors, which the model does not compute.
- DefaultBoxes.CalDefaultBoxes requires a positive range for the same reason; the layer's set-up guarantees it.
- `AddMatVector`, the OpenCV variant of memory_data_layer.cpp:129-150, is not modelled.
- Blob::Reshape is not part of this model. Its check that no dimension is negative is a refusal in MemoryData.MemoryDataLayer.DataLayerSetUp, SetBatchSize and Forward, and in the shape checks of SsdLayer.CheckShapes, which demand positive axes. Its overflow check on the element count falls under the 32-bit line above.
- The header declarations in ssd_layer.hpp and multibox_loss_layer.hpp, `data_layer.cpp`, the helpers of `io.hpp`, `ReadFileToDatum` and `ReadMatToDatum`, and the classification example are not part of this model.
