/** The grading record shared by the bot and the pose server (linebot/commons/types.go).
    Go's float64 grades are modelled as reals. */
module Commons {

  datatype GradingDetail = GradingDetail(description: string, grade: real)

  datatype GradingOutcome = GradingOutcome(gradingDetails: seq<GradingDetail>, totalGrade: real)

  /** Go's zero value of GradingOutcome. */
  const ZeroOutcome := GradingOutcome([], 0.0)
}
