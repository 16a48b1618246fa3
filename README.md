# CoordTrans core in Dafny

CoordTrans is a desktop tool for converting survey coordinates between the WGS-84 and
Beijing-54 datums. It has three pages:

- A seven-parameter page fits a Bursa–Wolf transformation (three translations, three small
  rotations and a scale) to a table of control points.
- A four-parameter page fits a plane similarity (a, b, dx, dy) to a table of control
  points.
- A transformation page applies either fitted parameter set to a single point. The point
  can be Cartesian (XYZ), geodetic (BLH, in decimal degrees or degrees:minutes:seconds) or
  in the Gauss–Krüger plane.

The main window saves a page's control table and parameters as a JSON configuration and
imports one back.

This project models that core:

- **The two fitting routines.** `four_par.dfy` and `seven_par.dfy` cover input validation,
  the least-squares design matrix and observation vector (built in place in arrays), the
  residuals and the accuracy report, and the single-point transformations.
- **Gauss–Krüger zone arithmetic.** `gauss_zone.dfy` covers the zone number, the central
  meridian, the false-easting offsets and the zone estimate on the inverse.
- **The transformation page.** `transform_page.dfy` covers DMS parsing, the central-meridian
  field, the coordinate labels, how input and parameter fields are read, and the routing of
  one transformation.
- **The two parameter pages.** `seven_param_page.dfy` and `four_param_page.dfy` model each
  page as a class whose fields are the page's widgets. The add, edit, save, delete,
  select-all and calculate handlers are methods on it. `control_table.dfy` holds the table
  logic they share.
- **The main window's import and save handlers.** `main_window.dfy` covers the join by
  point id, the row-by-row seven-parameter import with the exceptions that end it early,
  and save-then-import round trips for both pages.

Python's string and number primitives that the code relies on (`strip`, `split`,
`replace`, `in`, `float()`) are modelled in `text.dfy`, and the matrix algebra in
`linear.dfy`. Numbers are Dafny `real`s. Library routines that compute with floating
point are parameters of the functions that call them:

- least squares and `solve`;
- `sqrt`, `atan2`, `np.std`, `np.radians`;
- the geodetic converters and the projection series;
- number formatting.

## Model

| member | source | states |
|---|---|---|
| FourPar.CheckCounts | src/function/four_par.py:27-32 | the input is accepted exactly when both lists have at least two points and equal length; too few points is reported whenever either list is short |
| FourPar.InsufficientBeforeMismatch | src/function/four_par.py:28-32 | the point-count check comes before the length check (1 vs 3 points is "insufficient", 2 vs 3 is "mismatch") |
| FourPar.Design | src/function/four_par.py:36-52 | the design matrix has 2n rows of four columns, row k being the k-th design row |
| FourPar.Observations | src/function/four_par.py:54-56 | the observation vector has 2n entries, the target x, y of each point in turn |
| FourPar.PairEntries | src/function/four_par.py:43-56 | point i contributes rows [x, -y, 1, 0] and [y, x, 0, 1] and observations X, Y |
| FourPar.DesignAgreesWithApply | src/function/four_par.py:43-52 | multiplying the design matrix by [a, b, dx, dy] gives, for each point, the transformed X = a·x − b·y + dx and Y = b·x + a·y + dy |
| FourPar.SetRow4 | src/function/four_par.py:44-52 | writing one design row sets that row's four entries and leaves every other row unchanged |
| FourPar.FillPair | src/function/four_par.py:39-56 | one loop iteration fills rows 2i, 2i+1 of A and L with point i's entries and nothing else |
| FourPar.BuildSystem | src/function/four_par.py:35-56 | the arrays built by the loop hold exactly the design matrix and the observation vector |
| FourPar.FitOf | src/function/four_par.py:62-75 | the reported fit carries the solved parameters |
| FourPar.CalculateFourParameters | src/function/four_par.py:4-75 | invalid counts give the matching error; otherwise the result is the fit of the least-squares solution of the design system |
| FourPar.Residual | src/function/four_par.py:58-59 | the residual vector has one entry per observation |
| FourPar.ResidualPair | src/function/four_par.py:58-59 | the residual entries of point i are the transformed point minus the target point |
| FourPar.ExactFitIff | src/function/four_par.py:58-59 | the residual vector is zero if and only if the parameters map every source point exactly onto its target |
| FourPar.ReadDict | src/function/four_par.py:91-94 | a parameter dictionary is read exactly when it has the keys a, b, dx, dy, giving those values; a missing "a" is a KeyError for "a" |
| FourPar.TransformCoordinates | src/function/four_par.py:77-102 | a bad dictionary is reported; otherwise every point is transformed by the same parameters, keeping order and count |
| FourPar.ReadParams | src/function/four_par.py:119-126 | a list of parameters is accepted only with exactly four entries; a dictionary is read as above |
| FourPar.TransformPointFourPar | src/function/four_par.py:104-138 | parameter errors come first, then a point that is not two numbers is refused; otherwise the point is transformed |
| FourPar.DictAndSeqAgree | src/function/four_par.py:119-126 | the dictionary and list forms of the same parameters transform a point identically |
| FourPar.IdentityFixesPoints | src/function/four_par.py:134-138 | a = 1, b = dx = dy = 0 leaves every point where it is |
| FourPar.SinglePointAgreesWithList | src/function/four_par.py:128-138 | the single-point transformation agrees with the similarity applied to that point |
| SevenPar.CheckInput | src/function/seven_par.py:32-37 | the input is accepted exactly when both lists are non-empty, of equal length, of 3-vectors, with at least three points; a shape fault is reported whenever the shape is wrong |
| SevenPar.ShapeBeforeCount | src/function/seven_par.py:32-37 | the shape check comes before the point-count check; empty input is a shape fault |
| SevenPar.ToPoints | src/function/seven_par.py:29-30 | every 3-vector becomes the point with those coordinates |
| SevenPar.Design | src/function/seven_par.py:45-49 | the design matrix has 3n rows of seven columns, row k being the k-th design row |
| SevenPar.Observations | src/function/seven_par.py:52 | the observation vector has 3n entries, target minus source, coordinate by coordinate |
| SevenPar.Normal | src/function/seven_par.py:55 | the normal matrix BᵀB is 7×7 |
| SevenPar.RightHandSide | src/function/seven_par.py:56 | BᵀL has seven entries |
| SevenPar.NormalSymmetric | src/function/seven_par.py:55 | the normal matrix is symmetric |
| SevenPar.RotationOffset | src/function/seven_par.py:109-113 | the small-angle part of the rotation matrix is 3×3 |
| SevenPar.RotationOffsetSkew | src/function/seven_par.py:109-113 | that part is skew-symmetric |
| SevenPar.RotateIsOffset | src/function/seven_par.py:109-117 | the rotation applied to a point in the transform is that matrix (R - I) multiplied by the point, so R @ point is the point plus it |
| SevenPar.DesignAgreesWithLinearised | src/function/seven_par.py:45-49 | the design matrix times the parameter vector gives, per point and coordinate, the linearised Bursa–Wolf correction |
| SevenPar.LinearisedExactWithoutScale | src/function/seven_par.py:116-117 | with zero scale, the full transformation is the point plus its linearised correction |
| SevenPar.Residual | src/function/seven_par.py:60 | the residual vector has one entry per observation |
| SevenPar.Reshape | src/function/seven_par.py:61 | reshaping to (-1, 3) gives row i = entries 3i, 3i+1, 3i+2 |
| SevenPar.ResidualIsMisfit | src/function/seven_par.py:60-61 | residual row i is the source point plus its linearised correction, minus the target point |
| SevenPar.ResidualOfTransform | src/function/seven_par.py:60-61 | with zero scale, residual row i is the transformed source point minus the target point |
| SevenPar.Column | src/function/seven_par.py:69-74 | column c holds coordinate c of every residual |
| SevenPar.Min | src/function/seven_par.py:69-74 | the minimum is a member and at most every entry |
| SevenPar.Max | src/function/seven_par.py:69-74 | the maximum is a member and at least every entry |
| SevenPar.MeanAtLeast | src/function/seven_par.py:69-74 | a lower bound of every entry bounds the mean |
| SevenPar.MeanAtMost | src/function/seven_par.py:69-74 | an upper bound of every entry bounds the mean |
| SevenPar.MeanBetween | src/function/seven_par.py:69-74 | the mean lies between the minimum and the maximum |
| SevenPar.Stats | src/function/seven_par.py:68-75 | the per-axis statistics satisfy min ≤ mean ≤ max |
| SevenPar.Redundancy | src/function/seven_par.py:64-65 | with at least three points the redundancy 3n − 7 is at least 2 |
| SevenPar.Radicand | src/function/seven_par.py:64-65 | the value under the square root of the unit-weight error is never negative |
| SevenPar.Report | src/function/seven_par.py:59-82 | the report carries the parameters, one residual per point equal to that point's misfit, and per-axis statistics with min ≤ mean ≤ max |
| SevenPar.SetRow7 | src/function/seven_par.py:45-49 | writing one design row sets that row and leaves the others unchanged |
| SevenPar.FillBlock | src/function/seven_par.py:43-52 | one loop iteration fills rows 3i..3i+2 of B and L with point i's entries and nothing else |
| SevenPar.BlockEntries | src/function/seven_par.py:43-52 | point i's three design rows are its block rows and its observations are target minus source |
| SevenPar.BuildSystem | src/function/seven_par.py:39-52 | the arrays built by the loop hold exactly the design matrix and the observation vector |
| SevenPar.BursaSevenParameters | src/function/seven_par.py:3-82 | a validation fault is reported as such; a singular normal system is an error; otherwise the result is the report for the solution of the normal equations |
| SevenPar.TransformPointSevenPar | src/function/seven_par.py:84-119 | a point that is not three numbers is refused, then fewer than seven parameters; otherwise the point is transformed by the first seven |
| SevenPar.ZeroParamsIdentity | src/function/seven_par.py:104-119 | zero parameters leave every point where it is |
| Linear.MatVec | src/function/seven_par.py:60 | A @ v has one entry per row, the dot product of that row with v |
| Linear.Sub | src/function/seven_par.py:60 | u − v entry by entry |
| Linear.SumSquares | src/function/seven_par.py:64 | VᵀV is never negative |
| Linear.SumSquaresZeros | src/function/seven_par.py:64 | VᵀV of the zero vector is zero |
| Linear.Gram | src/function/seven_par.py:55 | entry (j, k) of AᵀA is the product of columns j and k |
| Linear.TransposeTimes | src/function/seven_par.py:56 | entry j of Aᵀv is column j dotted with v |
| Linear.GramSymmetric | src/function/seven_par.py:55 | AᵀA is symmetric |
| Linear.Rows | src/function/four_par.py:36-52 | the contents of a two-dimensional array, row by row, with its shape |
| GaussZone.Trunc | src/function/Beijing54_BLH_XYZ_xy.py:102-106 | Python's int() truncates toward zero, for both signs |
| GaussZone.CentralMeridian | src/function/Beijing54_BLH_XYZ_xy.py:97-107 | a given central meridian is used as is; otherwise the meridian of the longitude's zone |
| GaussZone.SixDegreeBelt | src/function/Beijing54_BLH_XYZ_xy.py:104-107 | for an east longitude the six-degree zone is numbered from 1 and its meridian lies within 3° of the point |
| GaussZone.ThreeDegreeBelt | src/function/Beijing54_BLH_XYZ_xy.py:100-103 | for an east longitude the three-degree zone is numbered from 1 and its meridian lies within 1.5° of the point |
| GaussZone.Forward | src/function/Beijing54_BLH_XYZ_xy.py:97-138 | the plane point is the projection series at the longitude difference from the central meridian, shifted by the false easting and false northing |
| GaussZone.Reduce | src/function/Beijing54_BLH_XYZ_xy.py:161-163 | the inverse first removes the false northing and false easting |
| GaussZone.OffsetsCancel | src/function/Beijing54_BLH_XYZ_xy.py:161-163 | adding then removing the offsets is the identity |
| GaussZone.EstimatedZone | src/function/Beijing54_BLH_XYZ_xy.py:192-201 | without a central meridian, the zone estimate fails (division by zero) exactly when the false easting is zero |
| GaussZone.Inverse | src/function/Beijing54_BLH_XYZ_xy.py:140-205 | with a given meridian it always succeeds; otherwise it fails exactly for a zero false easting; the longitude is the meridian plus the series' longitude difference |
| GaussZone.RoundTripGivenMeridian | src/function/Beijing54_BLH_XYZ_xy.py:161-205 | with a given central meridian and an inverse series that undoes the forward one, projecting and then inverting gives back the latitude and longitude |
| GaussZone.EstimateNearFalseEasting | src/function/Beijing54_BLH_XYZ_xy.py:194-201 | eastings between half and one and a half false eastings estimate zone 1, whose meridian is 3° (1.5° for three-degree belts) |
| Text.Strip | src/gui/pages/transform_page.py:759 | strip() leaves a slice of the text with only whitespace removed around it and none at its ends |
| Text.StripUnchanged | src/gui/pages/transform_page.py:759 | a text without whitespace at its ends is left alone by strip() |
| Text.Remove | src/gui/pages/transform_page.py:759 | replace(c, '') keeps exactly the other characters, changes nothing when c is absent, and deletes a one-character text exactly when it is c |
| Text.RemoveAppend | src/gui/pages/transform_page.py:759 | replace(c, '') of a concatenation is the concatenation of the replacements, so with the one-character case it keeps the other characters in their order |
| Text.ContainsIffOccurs | src/gui/pages/transform_page.py:403-431 | substring membership `k in s` holds exactly when k occurs in s at some index |
| Text.Split | src/gui/pages/transform_page.py:764 | split(sep) gives at least one part, none containing sep, and joining them with sep gives the text back; without sep the text is one part |
| Text.FirstToken | src/gui/pages/transform_page.py:486-492 | split()[0] fails exactly for a blank text; otherwise it is the first non-empty run of non-space characters, preceded only by whitespace |
| Text.ParseUnsigned | src/gui/pages/transform_page.py:768-770 | an unsigned decimal literal is read exactly when it has the literal's shape, and its value is not negative |
| Text.ParseFloat | src/gui/pages/transform_page.py:784 | float() succeeds exactly on a stripped text that is a decimal literal with at most one sign |
| Text.ParseFloatDigits | src/gui/pages/transform_page.py:784 | a digit string reads as its decimal value |
| Text.ParseFloatNegative | src/gui/pages/transform_page.py:784 | a leading minus negates the value of the literal |
| Text.ReadField | src/gui/pages/transform_page.py:486-492 | an empty field is blank; a non-empty field is a number exactly when float() reads the whole text (plain reading) or its first whitespace-separated token (first-token reading), and the number is that reading |
| Angles.DmsDegrees | src/gui/pages/transform_page.py:776-782 | with non-negative minutes and seconds the magnitude is \|d\| + m/60 + s/3600 and the sign is that of the degrees |
| Angles.DmsNonNegative | src/gui/pages/seven_param_page.py:584-589 | non-negative degrees give the plain sum d + m/60 + s/3600 |
| Angles.DmsWholeDegrees | src/gui/pages/transform_page.py:776-782 | whole degrees are unchanged |
| TransformPage.DmsFields | src/gui/pages/transform_page.py:764-770 | three fields are read exactly when the text splits into three parts that float() reads, and they are those values |
| TransformPage.DecimalOf | src/gui/pages/transform_page.py:762-784 | without ':' the text is read by float(); with ':' it succeeds exactly when the three fields read and minutes and seconds are below 60, giving the signed DMS sum |
| TransformPage.ParseDmsToDecimal | src/gui/pages/transform_page.py:756-786 | the text is stripped and its degree signs removed before it is read as above |
| TransformPage.DmsNeedsThreeParts | src/gui/pages/transform_page.py:764-766 | a DMS text with other than three parts is refused |
| TransformPage.DmsRejectsSixty | src/gui/pages/transform_page.py:772-774 | minutes or seconds of 60 or more are refused |
| TransformPage.DmsText | src/gui/pages/transform_page.py:762-782 | a text "a:b:c" whose parts read as d, m, s gives the signed DMS sum when m, s < 60, and fails otherwise |
| TransformPage.MinusZeroDegrees | src/gui/pages/transform_page.py:776-779 | "-0:m:s" reads as the positive value m/60 + s/3600: the sign of negative zero degrees is lost |
| TransformPage.DmsPositive | src/gui/pages/transform_page.py:776-782 | non-negative degrees with valid minutes and seconds give d + m/60 + s/3600 |
| TransformPage.EllipsoidOf | src/gui/pages/transform_page.py:526-529 | only the name "WGS84" selects WGS-84; every other name selects Beijing-54 |
| TransformPage.GetCentralMeridian | src/gui/pages/transform_page.py:719-754 | an empty field gives the default 120° in radians; otherwise the field succeeds exactly when it parses as DMS or decimal degrees, giving that value in radians |
| TransformPage.LabelsFor | src/gui/pages/transform_page.py:403-431 | Cartesian kinds label X, Y, Z; otherwise geodetic kinds label B, L, H; otherwise plane kinds label x, y, h; any other kind leaves the labels alone |
| TransformPage.FloatOrZero | src/gui/pages/transform_page.py:456-458 | an empty field reads as 0; any other is read by float() |
| TransformPage.DmsOrZero | src/gui/pages/transform_page.py:445-450 | a non-empty angle field is read by the DMS parser |
| TransformPage.ZeroDms | src/gui/pages/transform_page.py:445-450 | the fallback text "0:0:0" reads as 0 |
| TransformPage.ReadInputs | src/gui/pages/transform_page.py:441-458 | the input point is read exactly when each of its three fields reads, by the DMS parser for the two angles of a DMS geodetic source and by float() otherwise |
| TransformPage.EmptyInputsReadZero | src/gui/pages/transform_page.py:441-458 | three empty fields read as the origin |
| TransformPage.ReadAll | src/gui/pages/transform_page.py:486-492 | one reading per parameter field, in order |
| TransformPage.ReadAllFirstTokens | src/gui/pages/transform_page.py:486-492 | a parameter field reads as blank exactly when empty, and as a number exactly when it has a first token float() reads, the number being that token's value |
| TransformPage.ReadParamFields | src/gui/pages/transform_page.py:483-504 | the parameters are read exactly when every field is a number; any malformed field is an "unreadable" warning; the values are those of the fields |
| TransformPage.MissingParameterAborts | src/gui/pages/transform_page.py:494-498 | an empty parameter field, with none malformed, gives the "incomplete" warning |
| TransformPage.ToTarget | src/gui/pages/transform_page.py:517-548 | a Cartesian target shows the transformed XYZ as is |
| TransformPage.FourParamRoute | src/gui/pages/transform_page.py:701-707 | the four-parameter route applies the similarity to x, y and passes the height through |
| TransformPage.ComputeTransform | src/gui/pages/transform_page.py:433-717 | an unreadable input point is an input error; a warning arises only in a parameter mode |
| TransformPage.FourParamModeKeepsHeight | src/gui/pages/transform_page.py:659-712 | in four-parameter mode with readable fields the shown point is the similarity of x, y with the height unchanged |
| TransformPage.SevenParamCartesian | src/gui/pages/transform_page.py:510-515 | XYZ to XYZ in seven-parameter mode shows the Bursa–Wolf transformation of the point, the same as the library's single-point transform |
| TransformPage.SevenParamGeodeticSource | src/gui/pages/transform_page.py:550-576 | a BLH source is converted to XYZ on its ellipsoid (after degrees to radians when the unit says so) before the seven-parameter transformation |
| TransformPage.SevenParamPlaneSource | src/gui/pages/transform_page.py:603-628 | a plane source is inverted with the central meridian to BLH, then to XYZ, before the transformation |
| TransformPage.PlaneTargetNeedsMeridian | src/gui/pages/transform_page.py:534-548 | a plane target with an unreadable central meridian is an input error |
| TransformPage.TransformView.constructor | src/gui/pages/transform_page.py:236-320 | both label sets start as X, Y, Z and no result is shown |
| TransformPage.TransformView.UpdateCoordinateLabels | src/gui/pages/transform_page.py:403-431 | each side's labels become those of its kind, unchanged for an unknown kind; the shown result is kept |
| TransformPage.TransformView.TransformCoordinates | src/gui/pages/transform_page.py:433-717 | the outcome is that of the transformation; a shown result replaces the output, anything else leaves it; the labels are kept |
| ControlTable.Selected | src/gui/pages/seven_param_page.py:601-606 | the selection lists every ticked row's index once, in ascending order, and nothing else |
| ControlTable.CollectSelected | src/gui/pages/seven_param_page.py:601-606 | the loop over the rows collects exactly the selection |
| ControlTable.SelectedStep | src/gui/pages/seven_param_page.py:601-606 | one more row adds its index to the selection exactly when it is ticked |
| ControlTable.Unchecked | src/gui/pages/seven_param_page.py:548-551 | the rows left after deleting the ticked ones are all unticked |
| ControlTable.UncheckedMembers | src/gui/pages/seven_param_page.py:548-551 | a row survives deletion exactly when it was in the table and unticked |
| ControlTable.UncheckedCount | src/gui/pages/seven_param_page.py:548-551 | surviving rows plus deleted rows make up the table |
| ControlTable.RemoveSelected | src/gui/pages/seven_param_page.py:548-551 | removing the selected rows from the highest index down leaves exactly the unticked rows in order |
| ControlTable.FindAllChecked | src/gui/pages/seven_param_page.py:702-708 | the scan reports "all ticked" exactly when every row is ticked |
| ControlTable.WithChecks | src/gui/pages/seven_param_page.py:710-714 | every row takes the given tick and keeps its cells and RMS text |
| ControlTable.SetAllChecks | src/gui/pages/seven_param_page.py:710-714 | the loop sets every row's tick to the given value |
| ControlTable.HeaderToggle | src/gui/pages/seven_param_page.py:694-714 | a click on column 0 of a non-empty table ticks every row unless all are ticked, in which case it clears them; other clicks change nothing |
| ControlTable.HeaderToggleTwice | src/gui/pages/seven_param_page.py:694-714 | two header clicks leave every row ticked as the rows were all ticked before, or all unticked otherwise |
| ControlTable.EditTarget | src/gui/pages/seven_param_page.py:410-427 | editing needs exactly one ticked row: none ticked and several ticked are refused, and the chosen row is the only ticked one |
| ControlTable.Overwrite | src/gui/pages/seven_param_page.py:508-516 | saving an edit replaces the edited row's cells, unticks it, keeps its RMS text, and leaves every other row |
| ControlTable.Coordinates | src/gui/pages/seven_param_page.py:623-628 | the selected rows are read in order; the read fails exactly when some selected row fails to read |
| ControlTable.ReadCoordinates | src/gui/pages/seven_param_page.py:623-628 | the loop returns exactly that reading |
| ControlTable.NoneExtends | src/gui/pages/seven_param_page.py:623-628 | a failure among the first rows read is a failure of the whole read |
| SevenParamPage.ValidateDegreeFormat | src/gui/pages/seven_param_page.py:307-331 | in decimal-degree mode a value is accepted exactly when float() reads it within ±180; in DMS mode a value is accepted exactly when it has the form degrees:minutes:seconds of the pattern, with minutes below 60 and seconds float() reads below 60 |
| SevenParamPage.DmsToDecimal | src/gui/pages/seven_param_page.py:573-589 | the page's DMS reader succeeds exactly when the text has three float() fields, whatever their range |
| SevenParamPage.GetCoordinateValue | src/gui/pages/seven_param_page.py:591-596 | a cell with ':' is read as DMS, any other by float() |
| SevenParamPage.DigitLedNonNegative | src/gui/pages/seven_param_page.py:311-313 | a number that starts and ends with a digit reads as non-negative |
| SevenParamPage.DmsAccepted | src/gui/pages/seven_param_page.py:307-331 | an accepted DMS value splits into digit degrees, digit minutes below 60 and seconds in [0, 60), which are its three fields |
| SevenParamPage.AcceptedValue | src/gui/pages/seven_param_page.py:307-331 | a DMS value the check accepts is read as degrees + minutes/60 + seconds/3600 |
| SevenParamPage.ReadersAgree | src/gui/pages/seven_param_page.py:307-331 | on every accepted DMS value, the page's reader and the transformation page's parser agree |
| SevenParamPage.ReaderAcceptsLargeMinutes | src/gui/pages/seven_param_page.py:573-596 | the page's reader accepts 60 or more minutes, which the transformation page's parser refuses |
| SevenParamPage.BareRejectsLargeMinutes | src/gui/pages/transform_page.py:772-774 | a bare DMS text with 60 or more minutes is refused by the transformation page's parser |
| SevenParamPage.CheckSide | src/gui/pages/seven_param_page.py:356-390 | a BLH side is accepted exactly when both angles pass the unit's check and the height is a number, and an angle fault is named first; an XYZ side needs three numbers |
| SevenParamPage.CheckInputs | src/gui/pages/seven_param_page.py:341-390 | an empty field is reported exactly when one is empty; the input is accepted exactly when no field is empty and both sides pass; a target fault means the source passed |
| SevenParamPage.SystemOf | src/gui/pages/seven_param_page.py:617-618 | a reference system is WGS-84 exactly when its name contains "WGS-84" |
| SevenParamPage.SidePoint | src/gui/pages/seven_param_page.py:623-654 | a side reads exactly when its three cells read; XYZ is taken as is, BLH is converted to XYZ on the side's ellipsoid from radians |
| SevenParamPage.RowRead | src/gui/pages/seven_param_page.py:623-654 | a row reads exactly when it has six cells and both sides read, giving both 3-vectors |
| SevenParamPage.RowReader | src/gui/pages/seven_param_page.py:623-654 | the reader handed to the table reads each row as above |
| SevenParamPage.PutRmsAt | src/gui/pages/seven_param_page.py:684-687 | each selected row gets its RMS text; ticks and cells are kept; unselected rows are unchanged |
| SevenParamPage.PutRmsKeepsCells | src/gui/pages/seven_param_page.py:684-687 | writing RMS texts never changes a cell |
| SevenParamPage.RmsTexts | src/gui/pages/seven_param_page.py:684-687 | each point's RMS text is the formatted length of its residual |
| SevenParamPage.WriteRms | src/gui/pages/seven_param_page.py:684-687 | the loop computes those texts and writes them into the selected rows |
| SevenParamPage.ResultTexts | src/gui/pages/seven_param_page.py:669-682 | the seven result fields show the parameters, translations and scale with " m", rotations with " rad" |
| SevenParamPage.CoordinatesShaped | src/gui/pages/seven_param_page.py:656-666 | three or more selected rows that read give an input the fitting routine accepts |
| SevenParamPage.Calculation | src/gui/pages/seven_param_page.py:598-692 | fewer than three ticked rows is refused; otherwise an unreadable ticked row is refused; a computed fit has one residual per ticked row |
| SevenParamPage.Calculate | src/gui/pages/seven_param_page.py:598-692 | the outcome is the calculation; a computed fit writes the RMS texts into the ticked rows; no cell ever changes |
| SevenParamPage.FitOutcome | src/gui/pages/seven_param_page.py:666-687 | on accepted input the fit is computed or the system is singular, with one residual per point |
| SevenParamPage.FitSelected | src/gui/pages/seven_param_page.py:666-687 | the fit's outcome, with RMS texts written into the selected rows only when it was computed |
| SevenParamPage.Page.constructor | src/gui/pages/seven_param_page.py:13-173 | an empty table and inputs; both sides BLH in DMS; WGS-84 source and Beijing-54 target; empty result fields |
| SevenParamPage.Page.Entered | src/gui/pages/seven_param_page.py:343-348 | the six stripped input texts |
| SevenParamPage.Page.OnAddClicked | src/gui/pages/seven_param_page.py:341-407 | valid input is appended as a new unticked row and the inputs are cleared; refused input changes nothing |
| SevenParamPage.Page.AppendRow | src/gui/pages/seven_param_page.py:392-407 | one unticked row holding the values is appended and the inputs are cleared |
| SevenParamPage.Page.OnEditClicked | src/gui/pages/seven_param_page.py:410-449 | with exactly one ticked row its cells go to the inputs and it becomes the edited row; otherwise nothing changes |
| SevenParamPage.Page.OnSaveClicked | src/gui/pages/seven_param_page.py:451-526 | without an edited row nothing changes; refused input changes nothing; valid input overwrites the edited row and ends the edit |
| SevenParamPage.Page.CommitEdit | src/gui/pages/seven_param_page.py:508-526 | the row is overwritten, the inputs cleared and the edit ended |
| SevenParamPage.Page.OnDeleteClicked | src/gui/pages/seven_param_page.py:528-562 | nothing ticked or not confirmed changes nothing; otherwise exactly the unticked rows remain, and an edit of a deleted row is abandoned |
| SevenParamPage.Page.OnHeaderClicked | src/gui/pages/seven_param_page.py:694-714 | the table becomes its header toggle |
| SevenParamPage.Page.OnCalculateClicked | src/gui/pages/seven_param_page.py:598-692 | the outcome is the calculation on the ticked rows; a computed fit shows the parameters and writes the RMS texts; otherwise the page is unchanged |
| SevenParamPage.Page.ShowFit | src/gui/pages/seven_param_page.py:669-687 | the result fields and rows become the given ones |
| FourParamPage.CheckInputs | src/gui/pages/four_param_page.py:225-238 | an empty field is reported exactly when one is empty; the input is accepted exactly when every field is non-empty and a number |
| FourParamPage.RowRead | src/gui/pages/four_param_page.py:404-407 | a row reads exactly when it has four cells that float() reads, giving source (x, y) and target (x, y) |
| FourParamPage.RowReader | src/gui/pages/four_param_page.py:404-407 | the reader handed to the table reads each row as above |
| FourParamPage.ToPoints | src/gui/pages/four_param_page.py:408-412 | each pair becomes the point with those coordinates |
| FourParamPage.CoordinatesShaped | src/gui/pages/four_param_page.py:400-412 | every row read gives two pairs of two numbers |
| FourParamPage.CalculationCases | src/gui/pages/four_param_page.py:383-426 | fewer than two ticked rows is refused; otherwise an unreadable ticked row is refused; otherwise the fit is the least-squares solution for the ticked rows' points |
| FourParamPage.ResultTexts | src/gui/pages/four_param_page.py:416-421 | the six result fields show a, b, dx, dy, the scale and the rotation with " rad" |
| FourParamPage.Calculate | src/gui/pages/four_param_page.py:383-413 | the steps compute exactly that calculation |
| FourParamPage.Page.constructor | src/gui/pages/four_param_page.py:9-128 | an empty table and inputs, ellipsoid WGS84, empty result fields |
| FourParamPage.Page.Entered | src/gui/pages/four_param_page.py:225-230 | the four stripped input texts |
| FourParamPage.Page.OnAddClicked | src/gui/pages/four_param_page.py:225-257 | valid input is appended as a new unticked row and the inputs are cleared; refused input changes nothing |
| FourParamPage.Page.OnEditClicked | src/gui/pages/four_param_page.py:259-296 | with exactly one ticked row its cells go to the inputs and it becomes the edited row; otherwise nothing changes |
| FourParamPage.Page.OnSaveClicked | src/gui/pages/four_param_page.py:298-338 | without an edited row nothing changes; refused input changes nothing; valid input overwrites the edited row and ends the edit |
| FourParamPage.Page.OnDeleteClicked | src/gui/pages/four_param_page.py:340-374 | nothing ticked or not confirmed changes nothing; otherwise exactly the unticked rows remain, and an edit of a deleted row is abandoned |
| FourParamPage.Page.OnHeaderClicked | src/gui/pages/four_param_page.py:428-448 | the table becomes its header toggle |
| FourParamPage.Page.OnCalculateClicked | src/gui/pages/four_param_page.py:383-426 | the outcome is the calculation; a computed fit is shown in the result fields; otherwise they are unchanged |
| MainWindow.MapOf | src/gui/main_window.py:605-617 | a dictionary literal's keys are exactly the listed keys |
| MainWindow.MapOfAt | src/gui/main_window.py:605-617 | with distinct keys each key maps to the value at its position |
| MainWindow.Ids | src/gui/main_window.py:433-434 | the ids of a point list are, item by item, its "id" or its position plus one |
| MainWindow.ById | src/gui/main_window.py:433-434 | the id dictionary holds exactly the ids of the list |
| MainWindow.ByIdLastWins | src/gui/main_window.py:433-434 | an item whose id no later item repeats is the one the dictionary keeps |
| MainWindow.Insert | src/gui/main_window.py:437 | inserting into an ascending list of distinct ids keeps it ascending, with the new id added |
| MainWindow.SortedUnique | src/gui/main_window.py:437 | sorted(set(...)) is strictly ascending with exactly the members of the input |
| MainWindow.IncreasingUnique | src/gui/main_window.py:437 | two strictly ascending lists with the same members are equal |
| MainWindow.Common | src/gui/main_window.py:439-445 | the ids the join keeps are exactly those both dictionaries hold, ascending when the input is |
| MainWindow.JoinRows | src/gui/main_window.py:439-463 | one row per kept id, pairing the source and target point of that id |
| MainWindow.FillFourTable | src/gui/main_window.py:439-463 | the loop appends exactly those rows |
| MainWindow.RmsPlaced | src/gui/main_window.py:466-474 | RMS placement keeps every row's tick and cells, and changes nothing when the table has at most five columns |
| MainWindow.PlaceRms | src/gui/main_window.py:466-474 | the loop computes exactly that placement |
| MainWindow.FourRowsJoinIds | src/gui/main_window.py:433-463 | a four-parameter import's rows are, in ascending id order, the ids both lists hold, each pairing the last source and last target point with that id |
| MainWindow.FourRowsFit | src/gui/main_window.py:439-474 | every imported row has four cells and no RMS text |
| MainWindow.ImportFour | src/gui/main_window.py:410-493 | the page keeps its six result fields |
| MainWindow.ImportFourComplete | src/gui/main_window.py:416-463 | with both sides present, the ellipsoid follows the source system when the combo lists it, and the rows are the id join |
| MainWindow.CellsFrom | src/gui/main_window.py:659-670 | n consecutive cell texts from the given column, "" where a cell has no item |
| MainWindow.SavedPoints | src/gui/main_window.py:560-586 | one point per row, in order, numbered by row |
| MainWindow.SavedRmsValues | src/gui/main_window.py:587-595 | one RMS entry per row, in order |
| MainWindow.CollectPoints | src/gui/main_window.py:560-598 | the loop over the rows collects exactly the two point lists and the RMS list |
| MainWindow.SavedParams | src/gui/main_window.py:605-617 | the saved parameters have exactly the parameter keys |
| MainWindow.Fields | src/gui/main_window.py:605-617 | each field is read whole, or by its first word from the given index on |
| MainWindow.ParamValues | src/gui/main_window.py:605-617 | a cleanly read field gives its number, or null when it is empty |
| MainWindow.SavedParamsNulled | src/gui/main_window.py:605-617 | one malformed field makes every saved parameter null |
| MainWindow.SavedParamsRead | src/gui/main_window.py:605-617 | with no malformed field each non-empty field is saved as its number and each empty one as null |
| MainWindow.SavedIds | src/gui/main_window.py:563-587 | the saved points are numbered 1, 2, ... in row order |
| MainWindow.NumberedKept | src/gui/main_window.py:433-434 | in a list numbered 1, 2, ..., every item is kept under its own number |
| MainWindow.SortedTwice | src/gui/main_window.py:437 | sorting the ids 1..n listed twice gives 1..n |
| MainWindow.NumberedIds | src/gui/main_window.py:433-445 | two lists numbered 1..n keep every id 1..n in the join |
| MainWindow.JoinOfNumbered | src/gui/main_window.py:433-463 | two lists numbered 1..n join position by position |
| MainWindow.SavedFourRow | src/gui/main_window.py:659-670 | the join row of a saved row's two points is that row, unticked |
| MainWindow.SavedTableJoins | src/gui/main_window.py:623-705 | the join of a saved four-parameter table is that table, unticked |
| MainWindow.SaveThenImportFour | src/gui/main_window.py:410-493 | saving the four-parameter page and importing the file restores the table, all unticked, and the ellipsoid |
| MainWindow.Lookups | src/gui/main_window.py:360-383 | the coordinate lookups succeed up to the first missing key, giving the values stored under the keys |
| MainWindow.Padded | src/gui/main_window.py:355-383 | cells never set read as "" |
| MainWindow.SevenRow | src/gui/main_window.py:355-388 | every inserted row has six cells and no tick; it completes exactly when a target point exists and both points have their three keys |
| MainWindow.SevenRowsFrom | src/gui/main_window.py:354-388 | every row the loop appends has six cells |
| MainWindow.FillSevenTable | src/gui/main_window.py:354-388 | the loop over the source points appends exactly those rows and stops with that exception |
| MainWindow.CompletePrefix | src/gui/main_window.py:354-388 | while the rows are complete the loop appends them one by one and goes on |
| MainWindow.SevenRowsPaired | src/gui/main_window.py:354-388 | complete lists, the target at least as long, give one row per source point pairing it with the target point at the same position, and no exception |
| MainWindow.ShortTargetStops | src/gui/main_window.py:354-388 | a shorter target list ends the import with IndexError after a row holding only the first unmatched source point |
| MainWindow.UnitAfter | src/gui/main_window.py:342-343 | setCurrentText on a unit combo selects the matching entry or keeps the current one |
| MainWindow.SystemAfter | src/gui/main_window.py:348-349 | setCurrentText on a system combo selects the text when it is an entry, otherwise keeps the current entry |
| MainWindow.ShowSevenParams | src/gui/main_window.py:392-408 | showing imported parameters changes only the result fields |
| MainWindow.SevenSettings | src/gui/main_window.py:319-349 | the settings change neither rows nor result fields; they end with KeyError exactly when a side lacks its type, unit or system; the systems stay among the entries |
| MainWindow.ApplySevenSettings | src/gui/main_window.py:319-349 | the statements compute exactly those settings |
| MainWindow.ImportSeven | src/gui/main_window.py:308-408 | the page keeps its seven result fields |
| MainWindow.ImportSevenComplete | src/gui/main_window.py:319-388 | with every key present the coordinate types, units and systems come from the file and the rows and exception from the point loop |
| MainWindow.ImportSevenFits | src/gui/main_window.py:308-408 | an import keeps six-cell rows and the systems among the entries |
| MainWindow.RemoveAllSuffix | src/gui/main_window.py:552-553 | removing the suffix from a name plus that suffix gives the name back |
| MainWindow.SystemNamesRoundTrip | src/gui/main_window.py:348-553 | a system entry loses its suffix on saving and gains it back on importing |
| MainWindow.SavedLookups | src/gui/main_window.py:563-586 | a saved point looks up to the cells it was saved from |
| MainWindow.SavedRowLookups | src/gui/main_window.py:360-383 | the two points saved from a six-cell row look up to that row's cells |
| MainWindow.SavedPairRow | src/gui/main_window.py:354-388 | each saved row pairs into itself |
| MainWindow.SavedTablePairs | src/gui/main_window.py:354-388 | the point loop over a saved table gives back the table, unticked, without an exception |
| MainWindow.SaveThenImportSeven | src/gui/main_window.py:308-621 | saving the seven-parameter page and importing it onto any page state completes and restores the table (unticked, RMS kept), coordinate types, units and systems |
| MainWindow.FindText | src/gui/main_window.py:423-425 | findText gives the first matching entry's index, or -1 exactly when none matches |
| MainWindow.Window.constructor | src/gui/main_window.py:81-84 | both pages freshly built with empty tables, the first tab shown |
| MainWindow.Window.PutSeven | src/gui/main_window.py:308-408 | writing a state into the seven-parameter page leaves its edit state and inputs |
| MainWindow.Window.PutFour | src/gui/main_window.py:410-493 | writing a state into the four-parameter page leaves its edit state and inputs |
| MainWindow.Window.ImportSevenParamData | src/gui/main_window.py:308-408 | switches to tab 0 and leaves the page as the import leaves it, returning the exception that stopped it |
| MainWindow.Window.ImportFourParamData | src/gui/main_window.py:410-493 | switches to tab 1 and leaves the page as the import leaves it |
| MainWindow.Window.OnImportClicked | src/gui/main_window.py:276-306 | a "四参数" file imports into the four-parameter page; any other or missing type imports into the seven-parameter page; the other page is unchanged |
| MainWindow.Window.SaveSevenParamData | src/gui/main_window.py:518-621 | the saved contents are those of the seven-parameter page |
| MainWindow.Window.SaveFourParamData | src/gui/main_window.py:623-705 | the saved contents are those of the four-parameter page |
| MainWindow.Window.OnSaveClicked | src/gui/main_window.py:495-516 | "七参数" saves the seven-parameter page, "四参数" the four-parameter page, anything else is a ValueError |

## Left out

- Floating point. Every number is a Dafny `real`, so rounding, overflow, `inf` and `nan`
  are not modelled.
- `np.linalg.lstsq`, `np.linalg.solve`, `np.sqrt`, `np.arctan2`, `np.std`, `np.radians` are
  parameters. Nothing is proved about their numerical results beyond what the callers
  require.
- The geodetic converters (WGS-84 and Beijing-54 BLH/XYZ) and the Gauss–Krüger projection
  series are parameters. Their transcendental series are not modelled.
- GaussZone.Forward, GaussZone.Inverse: work in degrees, whereas the source converts to and
  from radians around the zone arithmetic. Only the zone and offset arithmetic is modelled.
- Number formatting (`f"{v:.8f}"`, `f"{v:.4f}"`, `str(v)`) is a parameter.
- Text.ParseFloat: accepts only Python's plain decimal literals (optional sign, digits, one
  point). Exponents, `inf`/`nan`, underscores and non-ASCII digits and whitespace are not
  modelled.
- Text.Strip, Text.FirstToken: whitespace is the ASCII whitespace characters only; Python's
  strip() and split() also treat other Unicode whitespace as separators.
- SevenPar.LinearisedExactWithoutScale, SevenPar.ResidualOfTransform: proved for zero scale
  only. With a scale, the full transformation also has second-order terms that the
  linearised model drops.
- SevenParamPage.Page.OnEditClicked, MainWindow.Padded: a cell that never received an item
  reads as "". In the source, a seven-parameter import that fails part-way leaves a row
  whose later cells have no item, and editing that row sets the edited row and then raises
  AttributeError (`item(row, col)` is None); the model instead copies "" into the inputs.
- MainWindow.RmsPlaced: the four-parameter table has five columns, so the source's RMS
  write (column count greater than 5) never happens. Its contract states only that.
- MainWindow.ImportFour, MainWindow.ImportSeven: contracts state only that the result
  fields keep their number. The rows, settings and exceptions are stated by
  ImportFourComplete, ImportSevenComplete, ImportSevenFits and the save-then-import
  lemmas. The text of each shown parameter is given by the definitions of
  FourParamTexts and SevenParamTexts.
- TransformPage.ComputeTransform: its contract states only the input-error and warning
  cases. The four-parameter route and the seven-parameter routes into a Cartesian target
  are stated by the lemmas beside it.
- TransformPage.ToTarget: its contract states only the Cartesian target. The geodetic and
  plane targets chain the converter parameters and are given by its definition.
  PlaneTargetNeedsMeridian states the plane target's error case.
- Qt widgets, signals, styles, message boxes and file dialogs. A message box becomes a
  returned outcome; a confirmation becomes a `confirmed` parameter.
- Reading and writing the JSON file. The model starts from and ends at the decoded
  configuration.
- JSON values of the wrong type (a non-integer or null id, a number where a string is
  expected) are not modelled.
- `findChild` and the page lookups in the main window are taken to succeed.
- Other widget handlers:
  - `update_select_all_state` (the select-all checkbox);
  - the radio-button label handlers;
  - `on_param_type_changed`, `on_coord_type_changed`;
  - window dragging.
- `main.py` and all `print` logging.
