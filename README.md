# Raritan PDU exporter: a Dafny model of the probe path

The exporter is a small WSGI service. For each scrape it contacts one Raritan
PDU (power distribution unit) with the address and credentials given in the
request. It walks the PDU's outlets and inlets and returns three gauge metric
families for the scraping system. This project models that path and proves
what it produces:

- `wsgi_app` chooses a handler from the first path segment.
- `not_found` always returns the same plain-text 404.
- `probe` reads `target`, `user` and `pass` from the query string, builds a
  request-scoped `RaritanPDUCollector`, and hands the collector's families to
  the encoder.
- `RaritanPDUCollector.collect` visits the outlets and then the inlets, adding
  one sample per component to each family. An error raised by any remote call
  ends the run.

Modules, one per component:

- `Wrappers`: `Option`, plus `Result`, which works with `:-`.
- `PduModel`: the device as data. Each remote call (`getOutlets`, `getInlets`,
  `getSensors`, `getMetaData`, `getReading`) is a `Read`: the value it returned
  or the `Error` it raised. Readings have an opaque type `R`, because the
  collector only copies them.
- `Gauges`: `Sample` and `Family`, the record that a `GaugeMetricFamily`
  stands for here, with `AddMetric`.
- `Collector`: the three fixed families. `ReadOutlet` and `ReadInlet` are the
  calls made for one component. `OutletPass` and `InletPass` are the two
  loops. `Collection` is one run of the `collect` generator: the families it
  yielded and the error it raised. The class `RaritanPduCollector` keeps
  `target`, `user` and `password` as constants. Its method `Collect` is the
  step-by-step traversal with its loops, and is proved equal to `Collection`.
- `CollectorProperties`: what a run produces, stated against the device
  alone. A reference definition gives the expected samples. A flat record of
  every call (`Calls`) gives the error a run must raise.
- `Exporter`: `Dispatch`, `NotFoundResponse`, `ProbeArgs`, `ProbeResult`, and
  the method `ServeProbe`, which is proved equal to `ProbeResult`.

Rules taken from the code:

- Calls for one outlet happen in this order: sensors, metadata, active power,
  active energy. For one inlet: sensors, metadata, active power. The error
  raised is the one from the first failing call.
- The generator yields the two outlet families before it fetches the inlets.
  So a run that fails during the inlet stage has already yielded those two
  families. `generate_latest` lets the error through, so the probe as a whole
  returns no metrics.
- A probe's arguments are read in the order `target`, `user`, `pass`, before
  any collector exists. If a key is absent, `qs[key]` raises a `KeyError`
  (`MissingKey`). If a key has an empty value list, `[0]` would raise an
  `IndexError` (`NoValue`).
- The design asks that missing query parameters be rejected with a 4xx status.
  The code does not do this: the lookup raises out of the WSGI application.
  The model follows the code and returns `Raised(MissingKey(..))` or
  `Raised(NoValue(..))`.

## Model

| member | source | states |
|---|---|---|
| `Exporter.Dispatch` | exporter.py:21-29 | segment `''` goes to the front page, `probe` to the probe, `metrics` to the self-metrics app, and everything else (including no segment) to `not_found`; each direction is stated as an if-and-only-if, so exactly one handler is chosen |
| `Exporter.NotFoundResponse` | exporter.py:80-82 | the response is always `404 Not Found` with the single header `Content-Type: text/plain` and one body chunk whose bytes read `Not Found` followed by CR LF |
| `Exporter.AsciiRoundTrip` | exporter.py:82 | decoding the bytes of an ASCII literal gives back the literal, so the 404 body is exactly that text |
| `Exporter.ProbeArgs` | exporter.py:67-70 | succeeds exactly when `target`, `user` and `pass` each have a value, and then takes the first value of each; otherwise the error names the first key, in that order, with no value, as a missing key or an empty value list |
| `Exporter.ServeProbe` | exporter.py:66-74 | reading the arguments, building the collector and collecting gives `ProbeResult`: the arguments are read before the collector is built, and any error raised during collection ends the probe |
| `Exporter.BadQueryNeverReachesDevice` | exporter.py:67-70 | when an argument is missing, the probe raises the lookup error whatever the device would answer, so the device is never contacted |
| `Exporter.ProbeScrapesIff` | exporter.py:67-71 | a probe returns metrics exactly when its three arguments are present and every call on the device they reach succeeds; it then returns three families, and every sample has two label values, the first being the requested target |
| `Exporter.ProbeReportsFirstFault` | exporter.py:70-71 | with valid arguments, a probe fails exactly when some call fails, and it reports the first failing call in traversal order |
| `Collector.RaritanPduCollector.constructor` | exporter.py:91-94 | the collector holds the given target, user and password; they are constants and no method changes them |
| `Collector.RaritanPduCollector.Collect` | exporter.py:96-133 | the loops over outlets and inlets, adding samples one by one and returning at the first failing call, yield exactly `Collection(target, device)` for the device reached with the collector's address and credentials |
| `Collector.OutletPassFaultPersists` | exporter.py:115-120 | once an outlet fails, the rest of the outlet loop cannot change the result: the error stands |
| `Collector.InletPassFaultPersists` | exporter.py:127-131 | once an inlet fails, the rest of the inlet loop cannot change the result: the error stands |
| `Collector.OutletFaultAt` | exporter.py:116-120 | a failing call for outlet i, after all earlier outlets succeeded, is the error of the whole outlet loop |
| `Collector.InletFaultAt` | exporter.py:128-131 | a failing call for inlet i, after all earlier inlets succeeded, is the error of the whole inlet loop |
| `CollectorProperties.OutletPassSpec` | exporter.py:115-120 | the outlet loop succeeds exactly when every outlet is readable; it then yields one power sample and one energy sample per outlet, in outlet order, labelled `[target, outlet label]` and carrying that outlet's readings unchanged |
| `CollectorProperties.InletPassSpec` | exporter.py:127-131 | the inlet loop succeeds exactly when every inlet is readable; it then yields one power sample per inlet, in inlet order, labelled `[target, inlet label]` and carrying that inlet's reading unchanged |
| `CollectorProperties.CollectionSucceedsIffHealthy` | exporter.py:96-133 | a run raises nothing exactly when every call it makes on the device succeeds |
| `CollectorProperties.HealthySnapshot` | exporter.py:110-133 | on a healthy device, the run yields exactly three families in this order: `OutletActivePower` / `Outlet power in W` / `[pdu, outlet]`, `OutletActiveEnergy` / `Outlet energy in J` / `[pdu, outlet]`, and `InletActivePower` / `Inlet power in W` / `[pdu, inlet]`; the sample counts are the number of outlets, outlets and inlets; sample k carries component k's label and reading |
| `CollectorProperties.OutletPassLabelled` | exporter.py:119-120 | every sample the outlet loop produces has two label values, the first being the target |
| `CollectorProperties.InletPassLabelled` | exporter.py:131 | every sample the inlet loop produces has two label values, the first being the target |
| `CollectorProperties.YieldedFamiliesWellFormed` | exporter.py:110-133 | for any device, a run yields 0, 2 or 3 families, and 3 exactly when nothing is raised; family k has the k-th fixed name, help text and label names; every sample has one label value per label name, and the first is the target |
| `CollectorProperties.FirstFaultAppend` | exporter.py:96-133 | the first failure in a sequence of calls followed by more calls is the first failure of the earlier calls, if there is one, and otherwise the first failure of the later ones |
| `CollectorProperties.OutletCallsAgree` | exporter.py:117-120 | the error of one outlet's reads is the first failure among its calls: sensors, metadata, power, energy |
| `CollectorProperties.InletCallsAgree` | exporter.py:129-131 | the error of one inlet's reads is the first failure among its calls: sensors, metadata, power |
| `CollectorProperties.OutletsCallsAgree` | exporter.py:115-120 | the error of the outlet loop is the first failure among the calls for all outlets, in outlet order |
| `CollectorProperties.InletsCallsAgree` | exporter.py:127-131 | the error of the inlet loop is the first failure among the calls for all inlets, in inlet order |
| `CollectorProperties.RaisedIsFirstFault` | exporter.py:96-133 | the error a run raises is the first failing call in traversal order: outlet list, each outlet, inlet list, each inlet |
| `CollectorProperties.OneOutletOneInlet` | exporter.py:110-133 | a PDU at `10.45.1.1` with outlet `Outlet 1` (120.5 W, 3600.0 J) and inlet `Inlet 1` (121.0 W) yields exactly the three one-sample families with those labels and values |

## Left out

- The HTTP server, the thread-per-connection `ThreadingWSGIServer`, the daemon thread and the sleep loop (exporter.py:136-155): process and concurrency plumbing.
- The front page (exporter.py:32-63): a constant HTML document. `Dispatch` selects it, but its content is not modelled.
- The self-metrics app `prometheus_app` (exporter.py:77): part of prometheus_client. `Dispatch` selects it, but its output is not modelled.
- The registry, `generate_latest`, the text exposition encoding, and the `200 OK` response with `CONTENT_TYPE_LATEST` (exporter.py:69, 71-74): prometheus_client is not part of this model. `ProbeResult` stops at the families handed to the encoder, or at the error that escapes it.
- What the WSGI server does with an exception that escapes the application (a 500 response): this is server code, not part of this model.
- `get_agent`, HTTPS, disabled certificate verification and the `pdumodel.Pdu` proxy (exporter.py:85-87, 97-98): the Raritan RPC client is not part of this model. An `Agent` is a function from address, user and password to the answers the device gives.
- `shift_path_info` and `parse_qs`: standard-library parsing. `Dispatch` takes the segment already shifted. The probe takes the query already parsed into keys and value lists. Because `parse_qs` drops blank values, a request with `target=` reaches the model as a missing key.
- Floating-point readings: the collector only copies them, so their type is left abstract. The fields of a reading other than its value (validity, timestamp) are ignored by the source and are not modelled.
- The commented-out PDU-level families (exporter.py:100-108): dead code.
- `Gauges.Family.AddMetric`: does not model how prometheus_client pairs label values with label names. The collector always passes exactly two values for two names, which `CollectorProperties.YieldedFamiliesWellFormed` proves.
- The generator's lazy suspension: `Collection` records the families yielded before an error and the error itself, which is everything `generate_latest` can observe.
