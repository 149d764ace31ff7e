/** Structure identifiers used by the head-and-neck RapidPlan structure script. */
module Ids {

  // Structures that must already exist in the structure set.
  const BodyId := "Body"
  const PtvHighClinId := "PTV_7000"
  const PtvIntClinId := "PTV_6125"
  const PtvLowClinId := "PTV_5600"

  // Organs at risk that are used when present.
  const ParotidLId := "Parotid L"
  const ParotidRId := "Parotid R"
  const PharynxId := "Pharynx"
  const BrainstemId := "Brainstem"
  const CordId := "Spinal Cord"

  // Structures written to the plan.
  const PtvHighId := "PTV_HIGH"
  const PtvIntDvhId := "PTV_INT_DVH"
  const PtvIntOptId := "PTV_INT_OPT"
  const PtvLowDvhId := "PTV_LOW_DVH"
  const PtvLowOptId := "PTV_LOW_OPT"
  const ParotidLOptId := "Parotid L OAR"
  const ParotidROptId := "Parotid R OAR"
  const PharynxOptId := "OAR_Pharynx"
  const Ring310Id := "3_10mm RING"
  const Brainstem3mmId := "Brainstem 3PRV"
  const Cord5mmId := "Spinal Cord 5PRV"

  // Temporary structures, removed before the script ends.
  const Body3mmId := "Body_3mm"
  const PtvIntId := "PTV_INT"
  const PtvLowId := "PTV_LOW"
  const PtvHighIntId := "PTV_HIGH+INT"
  const PtvAllId := "PTV_ALL"
  const PtvHigh3mmId := "PTV_HIGH+3mm"
  const PtvHighInt3mmId := "PTV_HIGH+INT+3mm"
  const PtvAll3mmId := "PTV_ALL+3mm"
  const PtvAll10mmId := "PTV_ALL+10mm"
  const Ring310PreId := "3_10mm RING_pre"
  const PtvAllHighResId := "PTV_ALL_HighRes"

  /** The mandatory inputs, in the order in which they are checked. */
  const Mandatory: seq<string> := [BodyId, PtvHighClinId, PtvIntClinId, PtvLowClinId]
}
