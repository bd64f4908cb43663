/** Restoring channels from backups (`RestoreChansFromSingles` in `oblnd/chanrestore.go`): the two loops that give
    every channel shell a height the chain watcher can start from. */
module ChannelRestore {
  const MAX_UINT32 := 0xFFFF_FFFF
  const MAINNET_SCB_LAUNCH_BLOCK := 571800
  const TESTNET_SCB_LAUNCH_BLOCK := 1489300

  type UInt32 = x: int | 0 <= x <= MAX_UINT32

  datatype Chain = MainNet | TestNet3 | OtherChain

  /** A single channel backup; `opens` tells whether `openChannelShell` succeeds for it. */
  datatype Single = Single(chain: Chain, blockHeight: UInt32, txIndex: UInt32, opens: bool)

  datatype Shell = Shell(chain: Chain, blockHeight: UInt32, txIndex: UInt32, fundingBroadcastHeight: UInt32)

  /** `Panics` stands for the index out of range on the first shell of an empty batch. */
  datatype Result = Restored(shells: seq<Shell>) | Failed | Panics

  function OpenChannelShell(b: Single): Shell {
    Shell(b.chain, b.blockHeight, b.txIndex, 0)
  }

  /** The smallest non-zero height among the first `n` backups, the maximum when there is none. */
  function FirstHeight(backups: seq<Single>, n: nat): UInt32
    requires n <= |backups|
  {
    if n == 0 then MAX_UINT32
    else
      var first := FirstHeight(backups, n - 1);
      var height := backups[n - 1].blockHeight;
      if height != 0 && height < first then height else first
  }

  function LaunchBlock(chain: Chain): UInt32 {
    match chain
    case MainNet => MAINNET_SCB_LAUNCH_BLOCK
    case TestNet3 => TESTNET_SCB_LAUNCH_BLOCK
    case OtherChain => 1
  }

  /** The height hint for channels without one of their own. */
  function HeightHint(backups: seq<Single>): UInt32
    requires backups != []
  {
    var first := FirstHeight(backups, |backups|);
    if first == MAX_UINT32 then LaunchBlock(backups[0].chain) else first
  }

  function Repaired(s: Shell, hint: UInt32): Shell {
    if s.blockHeight == 0 then s.(fundingBroadcastHeight := hint)
    else if s.txIndex == 0 then s.(fundingBroadcastHeight := s.blockHeight, blockHeight := 0)
    else s
  }

  method RestoreChansFromSingles(backups: seq<Single>) returns (r: Result)
    ensures r.Failed? <==> exists i :: 0 <= i < |backups| && !backups[i].opens
    ensures r.Panics? <==> backups == []
    ensures r.Restored? ==>
              |r.shells| == |backups| > 0 &&
              forall i :: 0 <= i < |backups| ==>
                r.shells[i] == Repaired(OpenChannelShell(backups[i]), HeightHint(backups))
  {
    var channelShells := new Shell[|backups|](i => Shell(OtherChain, 0, 0, 0));
    var firstChanHeight: UInt32 := MAX_UINT32;
    var i := 0;
    while i < |backups|
      invariant 0 <= i <= |backups|
      invariant forall k :: 0 <= k < i ==> backups[k].opens
      invariant firstChanHeight == FirstHeight(backups, i)
      invariant forall k :: 0 <= k < i ==> channelShells[k] == OpenChannelShell(backups[k])
    {
      if !backups[i].opens {
        return Failed;
      }
      var chanShell := OpenChannelShell(backups[i]);
      if chanShell.blockHeight != 0 && chanShell.blockHeight < firstChanHeight {
        firstChanHeight := chanShell.blockHeight;
      }
      channelShells[i] := chanShell;
      i := i + 1;
    }

    if firstChanHeight == MAX_UINT32 {
      if channelShells.Length == 0 {
        return Panics;
      }
      match channelShells[0].chain {
        case MainNet => firstChanHeight := MAINNET_SCB_LAUNCH_BLOCK;
        case TestNet3 => firstChanHeight := TESTNET_SCB_LAUNCH_BLOCK;
        case OtherChain => firstChanHeight := 1;
      }
    }

    i := 0;
    while i < channelShells.Length
      invariant 0 <= i <= |backups|
      invariant firstChanHeight == HeightHint(backups)
      invariant forall k :: 0 <= k < i ==> channelShells[k] == Repaired(OpenChannelShell(backups[k]), firstChanHeight)
      invariant forall k :: i <= k < |backups| ==> channelShells[k] == OpenChannelShell(backups[k])
    {
      var channel := channelShells[i];
      if channel.blockHeight == 0 {
        channelShells[i] := channel.(fundingBroadcastHeight := firstChanHeight);
      } else if channel.txIndex == 0 {
        channelShells[i] := channel.(fundingBroadcastHeight := channel.blockHeight, blockHeight := 0);
      }
      i := i + 1;
    }
    return Restored(channelShells[..]);
  }

  /** The first height is a lower bound of all known heights, and is one of them or the maximum. */
  lemma {:induction false} FirstHeightIsMinimum(backups: seq<Single>, n: nat)
    requires n <= |backups|
    ensures var first := FirstHeight(backups, n);
            && first != 0
            && (forall k :: 0 <= k < n && backups[k].blockHeight != 0 ==> first <= backups[k].blockHeight)
            && (first != MAX_UINT32 ==> exists k :: 0 <= k < n && backups[k].blockHeight == first)
  {
    if n > 0 {
      FirstHeightIsMinimum(backups, n - 1);
    }
  }

  /** After the repair no shell is left that looks confirmed but is not, and none without a height to watch from:
      a shell with a block height has a transaction index, a shell without one has a broadcast height. A confirmed
      channel is untouched, and an unconfirmed one that encoded its broadcast height keeps that height. */
  lemma RepairLeavesUsableShells(backups: seq<Single>, i: nat)
    requires i < |backups|
    ensures var s := OpenChannelShell(backups[i]);
            var t := Repaired(s, HeightHint(backups));
            && (t.blockHeight != 0 ==> t.txIndex != 0 && t == s)
            && (t.blockHeight == 0 ==> t.fundingBroadcastHeight != 0)
            && (s.blockHeight != 0 && t.blockHeight == 0 ==> t.fundingBroadcastHeight == s.blockHeight)
            && t.chain == backups[i].chain && t.txIndex == backups[i].txIndex
            && (if backups[i].blockHeight != 0 && backups[i].txIndex != 0 then t.blockHeight == backups[i].blockHeight
                else t.blockHeight == 0)
            && (backups[i].blockHeight != 0 && backups[i].txIndex == 0 ==>
                  t.fundingBroadcastHeight == backups[i].blockHeight)
  {
    FirstHeightIsMinimum(backups, |backups|);
  }

  /** With no known height in the batch the scan starts at the launch of channel backups on the first shell's chain:
      block 571800 on mainnet, 1489300 on testnet, and block 1 elsewhere. */
  lemma {:induction false} UnknownBatchStartsAtLaunch(backups: seq<Single>, i: nat)
    requires i < |backups| && forall k :: 0 <= k < |backups| ==> backups[k].blockHeight == 0
    ensures Repaired(OpenChannelShell(backups[i]), HeightHint(backups)).fundingBroadcastHeight
         == (match backups[0].chain case MainNet => 571800 case TestNet3 => 1489300 case OtherChain => 1)
  {
    NoKnownHeight(backups, |backups|);
  }

  lemma {:induction false} NoKnownHeight(backups: seq<Single>, n: nat)
    requires n <= |backups| && forall k :: 0 <= k < n ==> backups[k].blockHeight == 0
    ensures FirstHeight(backups, n) == MAX_UINT32
  {
    if n > 0 {
      NoKnownHeight(backups, n - 1);
    }
  }

  /** A shell with no known height is watched from no later than any known height in the batch. */
  lemma HintIsEarlyEnough(backups: seq<Single>, i: nat, k: nat)
    requires i < |backups| && k < |backups|
    requires backups[i].blockHeight == 0 && backups[k].blockHeight != 0
    ensures Repaired(OpenChannelShell(backups[i]), HeightHint(backups)).fundingBroadcastHeight <= backups[k].blockHeight
  {
    FirstHeightIsMinimum(backups, |backups|);
  }
}
