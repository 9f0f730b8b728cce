/**
  Gauge metric families as the collector builds them (`GaugeMetricFamily`
  of prometheus_client), reduced to a plain record.
 */
module Gauges {

  /** One `add_metric` call: the label values and the reading. */
  datatype Sample<R> = Sample(labelValues: seq<string>, value: R)

  datatype Family<R> = Family(name: string, help: string, labelNames: seq<string>, samples: seq<Sample<R>>) {

    /** `add_metric(labels, value)`: appends one sample and keeps the header. */
    function AddMetric(labelValues: seq<string>, value: R): Family<R> {
      this.(samples := samples + [Sample(labelValues, value)])
    }

    /** Every sample carries one label value per label name. */
    predicate WellLabelled() {
      forall k :: 0 <= k < |samples| ==> |samples[k].labelValues| == |labelNames|
    }
  }
}
