/**
 * The records the panel and its sensor-list editor exchange. The sensor and
 * options records follow the fields the two modelled files read and write;
 * the data-frame and display records are the parts of the host dashboard's
 * data model that the value resolution looks at.
 */
module Types {
  import opened Wrappers

  /** A sensor's place on the image, in percent of the image's width and height. */
  datatype Position = Position(x: real, y: real)

  /**
   * `id` names the field to read ("" when empty or absent, which matches any
   * field; "app" selects the label-based lookup). `alias` is the "tile" label
   * to look for on that lookup and the title substring on the other one.
   */
  datatype Query = Query(id: string, alias: string)

  datatype Sensor = Sensor(
    name: string,
    query: Query,
    visible: bool,
    backgroundColor: string,
    fontColor: string,
    bold: bool,
    link: string,
    position: Position,
    mappingIds: seq<string>,
    unit: Option<string>,
    decimals: int,
    valueBlink: bool,
    iconName: string,
    backgroundBlink: bool)

  /**
   * A mapping rule, looked up by `id`. Its condition and visual overrides are
   * read only by the sensor widget, which this model does not cover, so they
   * are kept as uninterpreted attributes.
   */
  datatype Mapping = Mapping(id: string, attributes: map<string, string>)

  /** The panel's persisted options. */
  datatype Options = Options(
    imageUrl: string,
    forceImageRefresh: bool,
    lockSensors: bool,
    sensorsTextSize: real,
    sensors: seq<Sensor>,
    mappings: seq<Mapping>)

  /** One field of a data frame: `labels` is None when the field carries no label object. */
  datatype Field = Field(name: string, labels: Option<map<string, string>>, values: seq<real>)

  /** One series of the query result. */
  datatype Frame = Frame(fields: seq<Field>)

  /**
   * One entry of the host's per-field display list: its title ("" when empty
   * or absent) and its numeric value.
   */
  datatype Display = Display(title: string, numeric: Option<real>)
}
