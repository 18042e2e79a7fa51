# Compression ratio vs. decompression throughput: point selector

This project models the point selector of the plotting script `cr_vs_dt.py`.
The script holds a table of compression algorithms. Each row has a name, a
compression ratio, a decompression throughput in GB/s and a marker shape. The
ratio and the throughput may each be absent. The selector walks the table in
order and fills four parallel lists: x-values, y-values, labels and markers.

- A row without a compression ratio is always skipped.
- In numeric mode (`USE_CONCEPTUAL_Y` false), the y-value is the throughput.
  A row without a throughput is skipped.
- In conceptual mode (`USE_CONCEPTUAL_Y` true), the y-value is the row's rank
  in the `conceptual_y` dictionary. A row whose name has no rank is skipped.
  The throughput is not looked at.

The script's module-level table, mode flag and rank dictionary are parameters
of the model: a `seq<Entry>` with `Option` fields, a `bool` and a
`map<string, int>`. The script's own table and ranks are kept as the constants
`Table` and `ConceptualRanks`. They are used by the two scenario lemmas.

Files:

- `wrappers.dfy`: the `Option` datatype used for absent fields.
- `cr_vs_dt.dfy`: module `CrVsDt`. It holds the data model (`Entry`, `YValue`,
  `Point`), the specification function `Select`, the loop `BuildPoints` that
  mirrors the script, and the lemmas about the selection.

The script appends floats (throughputs) and ints (ranks) to the same `ys`
list. The model keeps the two kinds apart in `YValue = Measured(gbs) |
Ranked(level)`. Ratios and throughputs are only copied, never computed on, so
they are plain `real` values.

`KeptIndices` is an independent description of the output. It gives the table
positions of the rows that yield a point, in increasing order. Its contract
says that a position is listed exactly when that row is kept. `SelectAt` then
says that the k-th point is the point of the k-th listed row. Together they
state that the output is exactly the kept rows, each once, in table order.

## Model

| member | source | states |
|---|---|---|
| CrVsDt.BuildPoints | cr_vs_dt.py:43-61 | The loop yields four lists of one common length, never longer than the table, and entry k of the four lists is the k-th point of `Select` |
| CrVsDt.Select | cr_vs_dt.py:43-61 | The selection never yields more points than the table has rows |
| CrVsDt.KeptIndices | cr_vs_dt.py:44-56 | The positions of contributing rows are in range and strictly increasing, and a position is listed exactly when its row passes the ratio test and the mode's y-value test |
| CrVsDt.SelectAt | cr_vs_dt.py:44-61 | There is one point per contributing row, and the k-th point is made from the k-th contributing row (its ratio, y-value, name and marker), so table order is kept |
| CrVsDt.SelectAppend | cr_vs_dt.py:44-61 | Selecting from two tables joined end to end gives the two selections joined in the same order |
| CrVsDt.RatiolessEntryIgnored | cr_vs_dt.py:45-46 | Inserting a row without a compression ratio anywhere in the table does not change the output, in either mode |
| CrVsDt.NumericMode | cr_vs_dt.py:52-61 | In numeric mode a row contributes exactly when it has both a ratio and a throughput, and its point then has the throughput as y, plus its own ratio, name and marker |
| CrVsDt.ConceptualMode | cr_vs_dt.py:47-51 | In conceptual mode a row contributes exactly when it has a ratio and its name is a key of the rank map, and its point then has that rank as y, plus its own ratio, name and marker |
| CrVsDt.ConceptualIgnoresThroughput | cr_vs_dt.py:47-51 | In conceptual mode, changing any rows' throughputs leaves the output unchanged |
| CrVsDt.NumericIgnoresRanks | cr_vs_dt.py:52-56 | In numeric mode, the rank map has no effect on the output |
| CrVsDt.TableNumeric | cr_vs_dt.py:18-32 | With the script's table in numeric mode the output is the single GSST point (2.74, 191.0, "s"); FSST is dropped for lacking a throughput |
| CrVsDt.TableConceptual | cr_vs_dt.py:18-40 | With the script's table and ranks in conceptual mode both rows are plotted in table order, with y-values 4 and 5 |

## Left out

- The plotting at cr_vs_dt.py:63-82 (figure, scatter, annotations, axis labels, title, grid, conceptual y-ticks, layout, interactive display). It is made of calls into the charting library and has no logic of its own to state.
- The mode-dependent y-axis label at cr_vs_dt.py:71. It is part of the plotting above.
- Floating-point behaviour of ratios and throughputs. The selector only copies them, so they are opaque `real` values.
- Range checks on values, such as positive ratios or ranks between 1 and 5. The script does none, so the model adds none.
- Rows of the wrong shape. The script unpacks each row as a 4-tuple and would crash on any other shape. The `Entry` type rules such rows out.
- The unused `import math` at cr_vs_dt.py:1 and the commented-out placeholder rows and ranks at cr_vs_dt.py:24-26 and cr_vs_dt.py:37-39. They are not live behaviour.
