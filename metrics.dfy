/** The metrics sink, abstracted as the list of observations it has been sent. */
module Metrics {

  datatype Observation =
    | CounterAdd(labelValue: string, amount: int)   // CounterVec.WithLabelValues(labelValue).Add(amount)
    | GaugeSet(labelValue: string, value: int)      // GaugeVec.WithLabelValues(labelValue).Set(value)
}
