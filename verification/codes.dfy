/** The ODIM_H5 v2.0 vocabulary: object types, product types and quantities,
    the text codes that represent them in a file, and the fixed group,
    attribute and value names the library writes. */
module Codes {
  import opened Outcomes

  /** The ten object kinds, then the value for anything else. */
  datatype ObjectType =
    | ObjVolumePolar | ObjVolumeCartesian | ObjScan | ObjRay | ObjAzimuth
    | ObjImage | ObjCompositeImage | ObjCrossSection | ObjVerticalProfile | ObjPicture
    | ObjUnknown

  /** The seventeen product kinds, then the value for anything else. */
  datatype ProductType =
    | ProdScan | ProdPPI | ProdCAPPI | ProdPseudoCAPPI | ProdEchoTop | ProdMaximum
    | ProdAccumulation | ProdVIL | ProdComposite | ProdVerticalProfile | ProdRangeHeight
    | ProdVerticalSlice | ProdVerticalSidePanel | ProdHorizontalSidePanel | ProdRay
    | ProdAzimuth | ProdQuality
    | ProdUnknown

  /** The twenty-two measured quantities, then the value for anything else. */
  datatype Quantity =
    | QtyTH | QtyTV | QtyDBZH | QtyDBZV | QtyZDR | QtyRHOHV | QtyLDR | QtyPHIDP
    | QtyKDP | QtySQI | QtySNR | QtyRATE | QtyACRR | QtyHGHT | QtyVIL | QtyVRAD
    | QtyWRAD | QtyUWND | QtyVWND | QtyBRDR | QtyQIND | QtyCLASS
    | QtyUnknown

  /** The code of a known object type; the unknown type has none. */
  function ObjectCode(o: ObjectType): (r: Option<string>)
    ensures r.None? <==> o == ObjUnknown
    ensures r.Some? ==> 0 < |r.value| < 8 && '\0' !in r.value
  {
    match o
    case ObjVolumePolar => Some("PVOL")
    case ObjVolumeCartesian => Some("CVOL")
    case ObjScan => Some("SCAN")
    case ObjRay => Some("RAY")
    case ObjAzimuth => Some("AZIM")
    case ObjImage => Some("IMAGE")
    case ObjCompositeImage => Some("COMP")
    case ObjCrossSection => Some("XSEC")
    case ObjVerticalProfile => Some("VP")
    case ObjPicture => Some("PIC")
    case ObjUnknown => None
  }

  /** The object type a code names; an unrecognised code names the unknown type. */
  function ObjectOf(code: string): ObjectType
  {
    if code == "PVOL" then ObjVolumePolar
    else if code == "CVOL" then ObjVolumeCartesian
    else if code == "SCAN" then ObjScan
    else if code == "RAY" then ObjRay
    else if code == "AZIM" then ObjAzimuth
    else if code == "IMAGE" then ObjImage
    else if code == "COMP" then ObjCompositeImage
    else if code == "XSEC" then ObjCrossSection
    else if code == "VP" then ObjVerticalProfile
    else if code == "PIC" then ObjPicture
    else ObjUnknown
  }

  /** The code of a known product type; the unknown type has none. */
  function ProductCode(p: ProductType): (r: Option<string>)
    ensures r.None? <==> p == ProdUnknown
    ensures r.Some? ==> 0 < |r.value| < 8 && '\0' !in r.value
  {
    match p
    case ProdScan => Some("SCAN")
    case ProdPPI => Some("PPI")
    case ProdCAPPI => Some("CAPPI")
    case ProdPseudoCAPPI => Some("PCAPPI")
    case ProdEchoTop => Some("ETOP")
    case ProdMaximum => Some("MAX")
    case ProdAccumulation => Some("RR")
    case ProdVIL => Some("VIL")
    case ProdComposite => Some("COMP")
    case ProdVerticalProfile => Some("VP")
    case ProdRangeHeight => Some("RHI")
    case ProdVerticalSlice => Some("XSEC")
    case ProdVerticalSidePanel => Some("VSP")
    case ProdHorizontalSidePanel => Some("HSP")
    case ProdRay => Some("RAY")
    case ProdAzimuth => Some("AZIM")
    case ProdQuality => Some("QUAL")
    case ProdUnknown => None
  }

  /** The product type a code names; an unrecognised code names the unknown type. */
  function ProductOf(code: string): ProductType
  {
    if code == "SCAN" then ProdScan
    else if code == "PPI" then ProdPPI
    else if code == "CAPPI" then ProdCAPPI
    else if code == "PCAPPI" then ProdPseudoCAPPI
    else if code == "ETOP" then ProdEchoTop
    else if code == "MAX" then ProdMaximum
    else if code == "RR" then ProdAccumulation
    else if code == "VIL" then ProdVIL
    else if code == "COMP" then ProdComposite
    else if code == "VP" then ProdVerticalProfile
    else if code == "RHI" then ProdRangeHeight
    else if code == "XSEC" then ProdVerticalSlice
    else if code == "VSP" then ProdVerticalSidePanel
    else if code == "HSP" then ProdHorizontalSidePanel
    else if code == "RAY" then ProdRay
    else if code == "AZIM" then ProdAzimuth
    else if code == "QUAL" then ProdQuality
    else ProdUnknown
  }

  /** The code of a known quantity: its ODIM_H5 name. */
  function QuantityCode(q: Quantity): (r: Option<string>)
    ensures r.None? <==> q == QtyUnknown
    ensures r.Some? ==> 0 < |r.value| < 8 && '\0' !in r.value
  {
    match q
    case QtyTH => Some("TH")
    case QtyTV => Some("TV")
    case QtyDBZH => Some("DBZH")
    case QtyDBZV => Some("DBZV")
    case QtyZDR => Some("ZDR")
    case QtyRHOHV => Some("RHOHV")
    case QtyLDR => Some("LDR")
    case QtyPHIDP => Some("PHIDP")
    case QtyKDP => Some("KDP")
    case QtySQI => Some("SQI")
    case QtySNR => Some("SNR")
    case QtyRATE => Some("RATE")
    case QtyACRR => Some("ACRR")
    case QtyHGHT => Some("HGHT")
    case QtyVIL => Some("VIL")
    case QtyVRAD => Some("VRAD")
    case QtyWRAD => Some("WRAD")
    case QtyUWND => Some("UWND")
    case QtyVWND => Some("VWND")
    case QtyBRDR => Some("BRDR")
    case QtyQIND => Some("QIND")
    case QtyCLASS => Some("CLASS")
    case QtyUnknown => None
  }

  /** The quantity a code names; an unrecognised code names the unknown quantity. */
  function QuantityOf(code: string): Quantity
  {
    if code == "TH" then QtyTH
    else if code == "TV" then QtyTV
    else if code == "DBZH" then QtyDBZH
    else if code == "DBZV" then QtyDBZV
    else if code == "ZDR" then QtyZDR
    else if code == "RHOHV" then QtyRHOHV
    else if code == "LDR" then QtyLDR
    else if code == "PHIDP" then QtyPHIDP
    else if code == "KDP" then QtyKDP
    else if code == "SQI" then QtySQI
    else if code == "SNR" then QtySNR
    else if code == "RATE" then QtyRATE
    else if code == "ACRR" then QtyACRR
    else if code == "HGHT" then QtyHGHT
    else if code == "VIL" then QtyVIL
    else if code == "VRAD" then QtyVRAD
    else if code == "WRAD" then QtyWRAD
    else if code == "UWND" then QtyUWND
    else if code == "VWND" then QtyVWND
    else if code == "BRDR" then QtyBRDR
    else if code == "QIND" then QtyQIND
    else if code == "CLASS" then QtyCLASS
    else QtyUnknown
  }

  /** Object codes are pairwise distinct, so a written code reads back as the
      type that wrote it. */
  lemma ObjectOfCode(o: ObjectType)
    requires o != ObjUnknown
    ensures ObjectOf(ObjectCode(o).value) == o
  {
  }

  /** A code that reads as a known object type is that type's code. */
  lemma ObjectCodeOf(code: string)
    requires ObjectOf(code) != ObjUnknown
    ensures ObjectCode(ObjectOf(code)) == Some(code)
  {
  }

  /** Product codes are pairwise distinct, so a written code reads back as the
      type that wrote it. */
  lemma ProductOfCode(p: ProductType)
    requires p != ProdUnknown
    ensures ProductOf(ProductCode(p).value) == p
  {
    if p in {ProdScan, ProdPPI, ProdCAPPI, ProdPseudoCAPPI, ProdEchoTop, ProdMaximum, ProdAccumulation, ProdVIL} {
      PlanCodes(p);
    } else {
      SectionCodes(p);
    }
  }

  lemma PlanCodes(p: ProductType)
    requires p in {ProdScan, ProdPPI, ProdCAPPI, ProdPseudoCAPPI, ProdEchoTop, ProdMaximum, ProdAccumulation, ProdVIL}
    ensures ProductOf(ProductCode(p).value) == p
  {
  }

  lemma SectionCodes(p: ProductType)
    requires p in {ProdComposite, ProdVerticalProfile, ProdRangeHeight, ProdVerticalSlice, ProdVerticalSidePanel,
                   ProdHorizontalSidePanel, ProdRay, ProdAzimuth, ProdQuality}
    ensures ProductOf(ProductCode(p).value) == p
  {
  }

  /** A code that reads as a known product type is that type's code. */
  lemma ProductCodeOf(code: string)
    requires ProductOf(code) != ProdUnknown
    ensures ProductCode(ProductOf(code)) == Some(code)
  {
  }

  /** Quantity codes are pairwise distinct, so a written code reads back as
      the quantity that wrote it. */
  lemma QuantityOfCode(q: Quantity)
    requires q != QtyUnknown
    ensures QuantityOf(QuantityCode(q).value) == q
  {
    if q in {QtyTH, QtyTV, QtyDBZH, QtyDBZV, QtyZDR, QtyRHOHV, QtyLDR, QtyPHIDP, QtyKDP, QtySQI, QtySNR} {
      MomentCodes(q);
    } else if q in {QtyRATE, QtyACRR, QtyHGHT, QtyVIL, QtyVRAD} {
      DerivedCodes(q);
    } else if q in {QtyWRAD, QtyUWND, QtyVWND} {
      WindCodes(q);
    } else {
      QualityCodes(q);
    }
  }

  lemma MomentCodes(q: Quantity)
    requires q in {QtyTH, QtyTV, QtyDBZH, QtyDBZV, QtyZDR, QtyRHOHV, QtyLDR, QtyPHIDP, QtyKDP, QtySQI, QtySNR}
    ensures QuantityOf(QuantityCode(q).value) == q
  {
  }

  lemma DerivedCodes(q: Quantity)
    requires q in {QtyRATE, QtyACRR, QtyHGHT, QtyVIL, QtyVRAD}
    ensures QuantityOf(QuantityCode(q).value) == q
  {
  }

  lemma WindCodes(q: Quantity)
    requires q in {QtyWRAD, QtyUWND, QtyVWND}
    ensures QuantityOf(QuantityCode(q).value) == q
  {
  }

  lemma QualityCodes(q: Quantity)
    requires q in {QtyBRDR, QtyQIND, QtyCLASS}
    ensures QuantityOf(QuantityCode(q).value) == q
  {
  }

  /** A code that reads as a known quantity is that quantity's code. */
  lemma QuantityCodeOf(code: string)
    requires QuantityOf(code) != QtyUnknown
    ensures QuantityCode(QuantityOf(code)) == Some(code)
  {
  }

  // Group names.
  const What: string := "what"
  const Where: string := "where"
  const How: string := "how"
  const DatasetPrefix: string := "dataset"
  const DataPrefix: string := "data"
  const QualityPrefix: string := "quality"

  // Attribute names.
  const AtnConventions: string := "Conventions"
  const AtnObject: string := "object"
  const AtnVersion: string := "version"
  const AtnDate: string := "date"
  const AtnTime: string := "time"
  const AtnSource: string := "source"
  const AtnLatitude: string := "lat"
  const AtnLongitude: string := "lon"
  const AtnHeight: string := "height"
  const AtnProduct: string := "product"
  const AtnStartDate: string := "startdate"
  const AtnStartTime: string := "starttime"
  const AtnEndDate: string := "enddate"
  const AtnEndTime: string := "endtime"
  const AtnElevation: string := "elangle"
  const AtnFirstAzimuth: string := "a1gate"
  const AtnRangeCount: string := "nbins"
  const AtnRangeStart: string := "rstart"
  const AtnRangeScale: string := "rscale"
  const AtnAzimuthCount: string := "nrays"
  const AtnQuantity: string := "quantity"
  const AtnGain: string := "gain"
  const AtnOffset: string := "offset"
  const AtnNoData: string := "nodata"
  const AtnUndetect: string := "undetect"
  const AtnClass: string := "CLASS"
  const AtnImageVersion: string := "IMAGE_VERSION"

  /** The name of a layer's array. */
  const DatData: string := "data"

  // Attribute values.
  const ValTrue: string := "True"
  const ValFalse: string := "False"
  const ValConventions: string := "ODIM_H5/V2_0"
  const ValVersion: string := "H5rad 2.0"
  const ValClass: string := "IMAGE"
  const ValImageVersion: string := "1.2"
}
