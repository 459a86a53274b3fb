/**
 * Row-major index arithmetic shared by every flat buffer of the simulation:
 * a W-wide grid of records of `stride` slots is stored so that the record at
 * (row, col) starts at (row * W + col) * stride.
 */
module GridIndex {

  /** First slot of the record at (row, col) of a `width`-wide grid. */
  function RecordStart(width: nat, height: nat, stride: nat, row: nat, col: nat): (s: nat)
    requires row < height && col < width
    ensures s + stride <= width * height * stride
    ensures s == (row * width + col) * stride
  {
    FlatIndexBound(width, height, row, col);
    MulMonotone(row * width + col + 1, width * height, stride);
    (row * width + col) * stride
  }

  lemma MulMonotone(a: nat, b: nat, c: nat)
    requires a <= b
    ensures a * c <= b * c
  {
  }

  /** The pixel number row * width + col lies inside the grid. */
  lemma FlatIndexBound(width: nat, height: nat, row: nat, col: nat)
    requires row < height && col < width
    ensures row * width + col < width * height
  {
    assert row * width + col < row * width + width == (row + 1) * width;
    MulMonotone(row + 1, height, width);
  }

  /** Distinct cells have distinct pixel numbers. */
  lemma FlatIndexInjective(width: nat, row1: nat, col1: nat, row2: nat, col2: nat)
    requires col1 < width && col2 < width
    requires row1 * width + col1 == row2 * width + col2
    ensures row1 == row2 && col1 == col2
  {
    if row1 < row2 {
      MulMonotone(row1 + 1, row2, width);
      assert false;
    } else if row2 < row1 {
      MulMonotone(row2 + 1, row1, width);
      assert false;
    }
  }

  /** Every pixel number of the grid is reached by some cell. */
  lemma FlatIndexOnto(width: nat, height: nat, p: nat)
    requires p < width * height
    ensures width > 0 && p / width < height && p % width < width
    ensures (p / width) * width + p % width == p
  {
    if width > 0 && p / width >= height {
      MulMonotone(height, p / width, width);
      assert false;
    }
  }

  /**
   * The records of two distinct cells do not overlap, so a loop that fills
   * every record writes every slot at most once.
   */
  lemma RecordsDisjoint(width: nat, height: nat, stride: nat,
                        row1: nat, col1: nat, k1: nat, row2: nat, col2: nat, k2: nat)
    requires row1 < height && col1 < width && row2 < height && col2 < width
    requires k1 < stride && k2 < stride
    requires RecordStart(width, height, stride, row1, col1) + k1 == RecordStart(width, height, stride, row2, col2) + k2
    ensures row1 == row2 && col1 == col2 && k1 == k2
  {
    var p1, p2 := row1 * width + col1, row2 * width + col2;
    if p1 < p2 {
      MulMonotone(p1 + 1, p2, stride);
      assert false;
    } else if p2 < p1 {
      MulMonotone(p2 + 1, p1, stride);
      assert false;
    }
    FlatIndexInjective(width, row1, col1, row2, col2);
  }

  /** Every slot of the `width * height * stride` buffer belongs to some record. */
  lemma RecordsCover(width: nat, height: nat, stride: nat, i: nat)
    requires i < width * height * stride
    ensures stride > 0 && width > 0
    ensures (i / stride) / width < height && (i / stride) % width < width
    ensures RecordStart(width, height, stride, (i / stride) / width, (i / stride) % width) + i % stride == i
  {
    var p := i / stride;
    if p >= width * height {
      MulMonotone(width * height, p, stride);
      assert false;
    }
    FlatIndexOnto(width, height, p);
  }

  /** A record that comes earlier in row-major order ends before a later one starts. */
  lemma RecordOrder(width: nat, height: nat, stride: nat, row1: nat, col1: nat, row2: nat, col2: nat)
    requires row1 < height && col1 < width && row2 < height && col2 < width
    requires row1 < row2 || (row1 == row2 && col1 < col2)
    ensures RecordStart(width, height, stride, row1, col1) + stride <= RecordStart(width, height, stride, row2, col2)
  {
    var p1, p2 := row1 * width + col1, row2 * width + col2;
    if row1 < row2 {
      MulMonotone(row1 + 1, row2, width);
      MulSucc(row1, width);
    }
    assert p1 + 1 <= p2;
    MulMonotone(p1 + 1, p2, stride);
    MulSucc(p1, stride);
  }

  lemma MulSucc(a: nat, b: nat)
    ensures (a + 1) * b == a * b + b
  {
  }

  /** Slot `k` of record `i` of a buffer of `n` records of `stride` slots is in bounds. */
  lemma SliceInBounds(i: nat, n: nat, stride: nat, k: nat)
    requires i < n && k < stride
    ensures i * stride + k < n * stride
  {
    MulMonotone(i + 1, n, stride);
  }
}
