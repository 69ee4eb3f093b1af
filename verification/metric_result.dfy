/** The value and explanation an evaluation metric reports for one item. */
module MetricResult {
  datatype Score = Score(value: real, reason: string)
}
