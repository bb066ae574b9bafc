/** The dashboard's demonstration data and what the string operations make
    of its searched fields. */
module MockData {
  import opened JsString
  import opened DicomTypes

  /** The four demonstration studies the dashboard starts with. */
  const MockStudies: seq<Study> := [
    Study("1", "John Doe", "PAT001", "2024-01-15", "Chest X-Ray", "CR", 2, 4,
          "1.2.840.113619.2.5.1762583153.215519.978957063.78"),
    Study("2", "Jane Smith", "PAT002", "2024-01-14", "CT Abdomen", "CT", 5, 120,
          "1.2.840.113619.2.5.1762583153.215519.978957063.79"),
    Study("3", "Robert Johnson", "PAT003", "2024-01-13", "MRI Brain", "MR", 8, 200,
          "1.2.840.113619.2.5.1762583153.215519.978957063.80"),
    Study("4", "Emily Davis", "PAT004", "2024-01-12", "Ultrasound Abdomen", "US", 3, 15,
          "1.2.840.113619.2.5.1762583153.215519.978957063.81")
  ]

  /** The three demonstration queries, lower-cased. */
  lemma MockQueriesLowered()
    ensures ToLower("CT") == "ct" && ToLower("demo") == "demo" && ToLower(" CT ") == " ct "
  {
  }

  /** The searched fields of demonstration study "1", lower-cased. */
  lemma MockStudy1Lowered()
    ensures ToLower(MockStudies[0].patientName) == "john doe"
    ensures ToLower(MockStudies[0].patientId) == "pat001"
    ensures ToLower(MockStudies[0].studyDescription) == "chest x-ray"
  {
  }

  /** The searched fields of demonstration study "2", lower-cased. */
  lemma MockStudy2Lowered()
    ensures ToLower(MockStudies[1].patientName) == "jane smith"
    ensures ToLower(MockStudies[1].patientId) == "pat002"
    ensures ToLower(MockStudies[1].studyDescription) == "ct abdomen"
  {
  }

  /** The searched fields of demonstration study "3", lower-cased. */
  lemma MockStudy3Lowered()
    ensures ToLower(MockStudies[2].patientName) == "robert johnson"
    ensures ToLower(MockStudies[2].patientId) == "pat003"
    ensures ToLower(MockStudies[2].studyDescription) == "mri brain"
  {
  }

  /** The searched fields of demonstration study "4", lower-cased. */
  lemma MockStudy4Lowered()
    ensures ToLower(MockStudies[3].patientName) == "emily davis"
    ensures ToLower(MockStudies[3].patientId) == "pat004"
    ensures ToLower(MockStudies[3].studyDescription) == "ultrasound abdomen"
  {
  }

  /** Which lower-cased demonstration queries occur in the lower-cased fields of study "1". */
  lemma MockStudy1Includes()
    ensures !Includes("john doe", "ct") && !Includes("pat001", "ct") && !Includes("chest x-ray", "ct")
    ensures !Includes("john doe", "demo") && !Includes("pat001", "demo") && !Includes("chest x-ray", "demo")
  {
    MissingCharNotIncluded("john doe", "ct", 0);
    MissingCharNotIncluded("pat001", "ct", 0);
    MissingPairNotIncluded("chest x-ray", "ct", 0);
    MissingCharNotIncluded("john doe", "demo", 2);
    MissingCharNotIncluded("pat001", "demo", 0);
    MissingCharNotIncluded("chest x-ray", "demo", 0);
  }

  /** Which lower-cased demonstration queries occur in the lower-cased fields of study "2". */
  lemma MockStudy2Includes()
    ensures !Includes("jane smith", "ct") && !Includes("pat002", "ct") && Includes("ct abdomen", "ct")
    ensures !Includes("jane smith", "demo") && !Includes("pat002", "demo") && !Includes("ct abdomen", "demo")
  {
    MissingCharNotIncluded("jane smith", "ct", 0);
    MissingCharNotIncluded("pat002", "ct", 0);
    assert AgreesFrom("ct abdomen", "ct", 0, 0);
    MissingCharNotIncluded("jane smith", "demo", 0);
    MissingCharNotIncluded("pat002", "demo", 0);
    MissingPairNotIncluded("ct abdomen", "demo", 0);
  }

  /** Which lower-cased demonstration queries occur in the lower-cased fields of study "3". */
  lemma MockStudy3Includes()
    ensures !Includes("robert johnson", "ct") && !Includes("pat003", "ct") && !Includes("mri brain", "ct")
    ensures !Includes("robert johnson", "demo") && !Includes("pat003", "demo") && !Includes("mri brain", "demo")
  {
    MissingCharNotIncluded("robert johnson", "ct", 0);
    MissingCharNotIncluded("pat003", "ct", 0);
    MissingCharNotIncluded("mri brain", "ct", 0);
    MissingCharNotIncluded("robert johnson", "demo", 0);
    MissingCharNotIncluded("pat003", "demo", 0);
    MissingCharNotIncluded("mri brain", "demo", 0);
  }

  /** Which lower-cased demonstration queries occur in the lower-cased fields of study "4". */
  lemma MockStudy4Includes()
    ensures !Includes("emily davis", "ct") && !Includes("pat004", "ct") && !Includes("ultrasound abdomen", "ct")
    ensures !Includes("emily davis", "demo") && !Includes("pat004", "demo") && !Includes("ultrasound abdomen", "demo")
  {
    MissingCharNotIncluded("emily davis", "ct", 0);
    MissingCharNotIncluded("pat004", "ct", 0);
    MissingCharNotIncluded("ultrasound abdomen", "ct", 0);
    MissingCharNotIncluded("emily davis", "demo", 3);
    MissingCharNotIncluded("pat004", "demo", 0);
    MissingPairNotIncluded("ultrasound abdomen", "demo", 0);
  }

  /** " ct ", spaces included, occurs in no lower-cased field of study "2". */
  lemma MockStudy2IncludesPadded()
    ensures !Includes("jane smith", " ct ") && !Includes("pat002", " ct ") && !Includes("ct abdomen", " ct ")
  {
    MissingCharNotIncluded("jane smith", " ct ", 1);
    MissingCharNotIncluded("pat002", " ct ", 0);
    MissingPairNotIncluded("ct abdomen", " ct ", 0);
  }
}
