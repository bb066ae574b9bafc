/** The study record shown on the dashboard. */
module DicomTypes {

  /** One imaging study, field for field as the dashboard's DicomStudy record.
      Dates are kept as the ISO text the record holds; counts are non-negative. */
  datatype Study = Study(
    id: string,
    patientName: string,
    patientId: string,
    studyDate: string,
    studyDescription: string,
    modality: string,
    seriesCount: nat,
    imageCount: nat,
    studyInstanceUID: string
  )
}
