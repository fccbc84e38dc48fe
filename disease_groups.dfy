/**
 * The CHA2DS2-VASc disease tables: which (specialism, code) pairs count for
 * each letter of the score. Descriptions are kept as recorded (in Dutch).
 */
module DiseaseGroups {
  import opened Wrappers
  import opened Diseases


  /** Congestive heart failure. */
  const ChadsVascC: seq<Disease> := [
    Disease("CAR", "21", Some("aanwijzingen beperkt hartfalen")),
    Disease("CAR", "22", Some("acuut hartfalen")),
    Disease("CAR", "25", Some("hartfalen bij kleplijden")),
    Disease("CAR", "26", Some("hartfalen bij CMP")),
    Disease("CAR", "27", Some("chronisch hartfalen")),
    Disease("CAR", "301", Some("Acuut hartfalen")),
    Disease("CAR", "302", Some("Chronisch hartfalen")),
    Disease("DIE", "26", Some("Hartfalen")),
    Disease("GER", "262", Some("Decompensatio cordis")),
    Disease("INT", "107", Some("decompensatio cordis"))
  ]

  /** Hypertension. */
  const ChadsVascH: seq<Disease> := [
    Disease("CAR", "72", Some("hypertensie")),
    Disease("CAR", "902", Some("hypertensie")),
    Disease("DIE", "27", Some("Hypertensie")),
    Disease("INT", "311", Some("Hypertensie")),
    Disease("MDL", "901", Some("Hypertensie"))
  ]

  /** Diabetes mellitus. */
  const ChadsVascD: seq<Disease> := [
    Disease("CHI", "432", Some("diabetische voet(diabetes nno)")),
    Disease("DIE", "54", Some("Diabetes type 1")),
    Disease("DIE", "55", Some("Diabetes type  2")),
    Disease("GER", "222", Some("Diabetes Mellitus")),
    Disease("INT", "221", Some("DM znd secundaire complicaties")),
    Disease("INT", "222", Some("DM met secundaire complicaties")),
    Disease("INT", "223", Some("DM chronisch pomptherapie")),
    Disease("MDL", "902", Some("Diabetes mellitus")),
    Disease("ORT", "2065", Some("Diabetische voet"))
  ]

  /** Stroke or transient ischaemic attack. */
  const ChadsVascS: seq<Disease> := [
    Disease("GER", "263", Some("CVA / TIA")),
    Disease("INT", "121", Some("cerebrovasculair acc/TIA")),
    Disease("NEU", "1111", Some("onbloedige beroerte")),
    Disease("NEU", "1112", Some("TIA (incl amaurosis fugax)")),
    Disease("NEU", "1199", Some("overige cerebrovasc aand")),
    Disease("NEU", "9927", Some("Geen neur, werkdiag TIA")),
    Disease("OGK", "101", Some("CVA")),
    Disease("REV", "313", Some("CVA")),
    Disease("REV", "C31", Some("CVA klasse 1")),
    Disease("REV", "C32", Some("CVA klasse 2")),
    Disease("REV", "C33", Some("CVA klasse 3")),
    Disease("REV", "C34", Some("CVA klasse 4")),
    Disease("REV", "C36", Some("CVA klasse 6"))
  ]

  /** Vascular disease, in the recorded order (which groups the entries by specialism). */
  const ChadsVascV: seq<Disease> :=
    VascularAne + VascularCar + VascularChi + VascularFys + VascularGer + VascularInt + VascularLon + VascularRev

  const VascularAne: seq<Disease> := [
    Disease("ANE", "110", Some("Ischaem pijn a/d extremiteiten"))
  ]

  const VascularCar: seq<Disease> := [
    Disease("CAR", "3", Some("AP, geen ischemie aangetoond")),
    Disease("CAR", "4", Some("AP, ischemie aangetoond")),
    Disease("CAR", "5", Some("ischemie znd AP (stille isch)")),
    Disease("CAR", "7", Some("onstabiele / progressieve AP")),
    Disease("CAR", "9", Some("acuut MI (q/non-q) voorwand")),
    Disease("CAR", "11", Some("acuut MI (q/non-q) elders")),
    Disease("CAR", "13", Some("follow up na myocardinfarct")),
    Disease("CAR", "15", Some("follow up na  PTCA en/of CABG")),
    Disease("CAR", "202", Some("angina pectoris, stabiel")),
    Disease("CAR", "203", Some("angina pectoris, onstabiel")),
    Disease("CAR", "204", Some("ST elevatie hartinfarct")),
    Disease("CAR", "205", Some("non ST elevatie hartinfarct")),
    Disease("CAR", "601", Some("Arteriele vaatafw / stenose")),
    Disease("CAR", "801", Some("Follow-up na acuut cor syndr")),
    Disease("CAR", "802", Some("followup na PTCA e/o CABG/abl")),
    Disease("CAR", "808", Some("f-up na vaatoper(arte/ven)"))
  ]

  const VascularChi: seq<Disease> := [
    Disease("CHI", "402", Some("Carotispathologie")),
    Disease("CHI", "403", Some("Aneurysma aorta thor, ruptuur")),
    Disease("CHI", "405", Some("Aneurysma aorta iliacaal")),
    Disease("CHI", "406", Some("Aneurysma aorta abd, ruptuur")),
    Disease("CHI", "408", Some("nierarteriestenose")),
    Disease("CHI", "409", Some("Vaat afw abdominaal / bekken")),
    Disease("CHI", "410", Some("Vaatletsel bovenste extremit")),
    Disease("CHI", "412", Some("P.A.O.D. arm")),
    Disease("CHI", "416", Some("Aneurysma onderste extremiteit")),
    Disease("CHI", "418", Some("P.A.O.D. 2, claudicatio interm")),
    Disease("CHI", "419", Some("P.A.O.D. 3, rustpijn")),
    Disease("CHI", "420", Some("P.A.O.D. 4, gangreen"))
  ]

  const VascularFys: seq<Disease> := [
    Disease("FYS", "2048", Some("Hart-, Vaat-, Lymfevataandoeningen - alg. vaatlijd")),
    Disease("FYS", "2540", Some("Hart-, Vaat-, Lymfevataandoeningen - Hartaandoenin")),
    Disease("FYS", "2541", Some("harftinfarct, myocard-infarct (AMI)")),
    Disease("FYS", "2544", Some("Hart-, Vaat-, Lymfevataandoeningen - status na har")),
    Disease("FYS", "2548", Some("Hart-, Vaat-, Lymfevataandoeningen - alg. vaatlijd")),
    Disease("FYS", "6048", Some("Algemeen vaatlijden, circulatiestoornissen")),
    Disease("FYS", "6948", Some("Hart-, Vaat-, Lymfevataandoeningen - alg. vaatlijd")),
    Disease("FYS", "7148", Some("Hart-, Vaat-, Lymfevataandoeningen - alg. vaatlijd")),
    Disease("FYS", "7948", Some("Hart-, Vaat-, Lymfevataandoeningen - alg. vaatlijd")),
    Disease("FYS", "9048", Some("Hart-, Vaat-, Lymfevataandoeningen - alg. vaatlijd")),
    Disease("FYS", "9248", Some("Hart-, Vaat-, Lymfevataandoeningen - alg. vaatlijd")),
    Disease("FYS", "9346", Some("Hart-, Vaat-, Lymfevataandoeningen - Lymfevataando")),
    Disease("FYS", "9348", Some("Hart-, Vaat-, Lymfevataandoeningen - alg. vaatlijd"))
  ]

  const VascularGer: seq<Disease> := [
    Disease("GER", "261", Some("Aandoeningen hartvaatstelsel"))
  ]

  const VascularInt: seq<Disease> := [
    Disease("INT", "101", Some("sympt isch hartz, niet DBC-102")),
    Disease("INT", "102", Some("Instabiele AP, myocardinfarct")),
    Disease("INT", "122", Some("Arteriële trombose en embolie")),
    Disease("INT", "124", Some("atheroscl extr/perif vaatlijd")),
    Disease("INT", "129", Some("Aneurysma en ov arter vaat"))
  ]

  const VascularLon: seq<Disease> := [
    Disease("LON", "1102", Some("Pijn op de borst"))
  ]

  const VascularRev: seq<Disease> := [
    Disease("REV", "F21", Some("Hart/bloedvaten 1")),
    Disease("REV", "F22", Some("Hart/bloedvaten 2")),
    Disease("REV", "F23", Some("Hart/bloedvaten 3")),
    Disease("REV", "F24", Some("Hart/bloedvaten 4"))
  ]

  /** The table the stroke outcome uses: the very same list as the S group. */
  const StrokeDiseases: seq<Disease> := ChadsVascS

  /** Atrial fibrillation, recorded without descriptions. */
  const AtrialFib: seq<Disease> := [Disease("CAR", "401", None), Disease("INT", "106", None)]

  lemma TableSizes()
    ensures |ChadsVascC| == 10 && |ChadsVascH| == 5 && |ChadsVascD| == 9
    ensures |ChadsVascS| == 13 && |ChadsVascV| == 53
  {
  }

  lemma StrokeTableIsSGroup()
    ensures StrokeDiseases == ChadsVascS
    ensures |AtrialFib| == 2
    ensures AtrialFib[0].Id() == DiseaseId("CAR", "401") && AtrialFib[1].Id() == DiseaseId("INT", "106")
  {
  }
}
