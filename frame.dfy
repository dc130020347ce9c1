/** The part of a pandas DataFrame that the loader looks at: the names of the index
    levels, the labelled and typed columns in order, and the rows. */
module Frame {
  import opened Results

  /** The column dtypes the loader distinguishes; every other dtype is `Other`,
      carrying the name it prints as. */
  datatype DType =
    | Float64
    | Float32
    | Int64
    | Int32
    | DatetimeNaive   // datetime64[ns]
    | DatetimeUTC     // datetime64[ns, UTC]
    | Object
    | Other(name: string)

  /** How a dtype prints inside an f-string. */
  function DTypeName(dt: DType): string {
    match dt
    case Float64 => "float64"
    case Float32 => "float32"
    case Int64 => "int64"
    case Int32 => "int32"
    case DatetimeNaive => "datetime64[ns]"
    case DatetimeUTC => "datetime64[ns, UTC]"
    case Object => "object"
    case Other(name) => name
  }

  datatype Column = Column(name: string, dtype: DType)

  /** A row is opaque to the loader: it is copied as a whole, in frame order. */
  datatype Row = Row(cells: seq<string>)

  /** An index level that has no name has `None` as its name. */
  datatype DataFrame = DataFrame(indexNames: seq<Option<string>>, columns: seq<Column>, rows: seq<Row>)

  /** `list(df)`: the column labels, in order. */
  function ColumnNames(df: DataFrame): seq<string> {
    seq(|df.columns|, i requires 0 <= i < |df.columns| => df.columns[i].name)
  }
}
